/** Lowering bound tools to single-assignment plans, the static check, and the executor that substitutes `$` references. */
module Plan {
  import opened Text

  datatype Arg = Literal(text: string) | Flag

  datatype Binding = Binding(name: string, value: Arg)

  datatype Step = Step(tool: string, args: seq<Binding>, outputs: seq<string>)

  predicate Cites(a: Arg) { a.Literal? && a.text != "" && a.text[0] == '$' }

  function Cited(a: Arg): string
    requires Cites(a)
  {
    a.text[1..]
  }

  // The static check.

  function Outputs(steps: seq<Step>): seq<string> {
    if steps == [] then [] else Outputs(steps[..|steps| - 1]) + steps[|steps| - 1].outputs
  }

  predicate Undefined(defined: seq<string>, b: Binding) { Cites(b.value) && Cited(b.value) !in defined }

  /** Every reference of step i is an output of that step or an earlier one. */
  predicate CitationsDefined(steps: seq<Step>, i: nat)
    requires i < |steps|
  {
    forall b :: b in steps[i].args ==> !Undefined(Outputs(steps[..i + 1]), b)
  }

  /** What the static check is for, whatever order it looks in. */
  predicate Accepted(steps: seq<Step>, known: set<string>) {
    && steps != []
    && (forall i :: 0 <= i < |steps| ==> steps[i].tool in known && steps[i].outputs != [])
    && NoDuplicates(Outputs(steps))
    && (forall i :: 0 <= i < |steps| ==> CitationsDefined(steps, i))
  }

  datatype Fault = NoSteps | UnknownTool(i: nat) | NoOutputs(i: nat) | Redefined(i: nat, out: string) | UndefinedVariable(i: nat, name: string)

  predicate Real(steps: seq<Step>, known: set<string>, fault: Fault) {
    match fault
    case NoSteps => steps == []
    case UnknownTool(i) => i < |steps| && steps[i].tool !in known
    case NoOutputs(i) => i < |steps| && steps[i].outputs == []
    case Redefined(i, out) => i < |steps| && out in steps[i].outputs && !NoDuplicates(Outputs(steps[..i + 1]))
    case UndefinedVariable(i, name) =>
      i < |steps| && exists b | b in steps[i].args :: Undefined(Outputs(steps[..i + 1]), b) && Cited(b.value) == name
  }

  lemma OutputsStep(steps: seq<Step>, i: nat)
    requires i < |steps|
    ensures Outputs(steps[..i + 1]) == Outputs(steps[..i]) + steps[i].outputs
  {
    assert steps[..i + 1][..i] == steps[..i];
  }

  lemma {:induction false} OutputsPrefix(steps: seq<Step>, i: nat)
    requires i <= |steps|
    ensures Outputs(steps[..i]) <= Outputs(steps)
    decreases |steps|
  {
    if i == |steps| {
      assert steps[..i] == steps;
    } else {
      var front := steps[..|steps| - 1];
      OutputsPrefix(front, i);
      assert front[..i] == steps[..i];
    }
  }

  lemma PrefixHasNoDuplicates(a: seq<string>, b: seq<string>)
    requires a <= b && NoDuplicates(b)
    ensures NoDuplicates(a)
  {
    forall i, j | 0 <= i < j < |a| ensures a[i] != a[j] {
      assert b[i] != b[j];
    }
  }

  method DefineOutputs(outputs: seq<string>, before: set<string>, ghost prior: seq<string>)
    returns (repeated: Option<string>, defined: set<string>)
    requires NoDuplicates(prior) && forall v :: v in before <==> v in prior
    ensures repeated.None? <==> NoDuplicates(prior + outputs)
    ensures repeated.Some? ==> repeated.value in outputs
    ensures repeated.None? ==> forall v :: v in defined <==> v in prior || v in outputs
  {
    defined := before;
    for i := 0 to |outputs|
      invariant NoDuplicates(prior + outputs[..i])
      invariant forall v :: v in defined <==> v in prior || v in outputs[..i]
    {
      var v := outputs[i];
      ghost var sofar := prior + outputs[..i];
      assert prior + outputs[..i + 1] == sofar + [v];
      if v in defined {
        assert v in sofar;
        assert prior + outputs == sofar + outputs[i..];
        ghost var p :| 0 <= p < |sofar| && sofar[p] == v;
        assert (prior + outputs)[p] == (prior + outputs)[|sofar|];
        return Some(v), defined;
      }
      defined := defined + {v};
    }
    assert outputs[..|outputs|] == outputs;
    return None, defined;
  }

  method FindUndefined(args: seq<Binding>, defined: set<string>, ghost prior: seq<string>) returns (name: Option<string>)
    requires forall v :: v in defined <==> v in prior
    ensures name.None? <==> forall b :: b in args ==> !Undefined(prior, b)
    ensures name.Some? ==> exists b | b in args :: Undefined(prior, b) && Cited(b.value) == name.value
  {
    for i := 0 to |args|
      invariant forall b :: b in args[..i] ==> !Undefined(prior, b)
    {
      if Cites(args[i].value) && Cited(args[i].value) !in defined {
        assert Undefined(prior, args[i]);
        return Some(Cited(args[i].value));
      }
      assert args[..i + 1] == args[..i] + [args[i]];
    }
    assert args[..|args|] == args;
    return None;
  }

  /** Step i is fine after the steps before it. */
  predicate StepFits(steps: seq<Step>, known: set<string>, i: nat)
    requires i < |steps|
  {
    steps[i].tool in known && steps[i].outputs != [] && NoDuplicates(Outputs(steps[..i + 1])) && CitationsDefined(steps, i)
  }

  lemma AcceptedStepByStep(steps: seq<Step>, known: set<string>)
    ensures Accepted(steps, known) <==> steps != [] && forall i :: 0 <= i < |steps| ==> StepFits(steps, known, i)
  {
    if steps != [] && forall i :: 0 <= i < |steps| ==> StepFits(steps, known, i) {
      assert StepFits(steps, known, |steps| - 1);
      assert steps[..|steps|] == steps;
      hide Outputs;
      forall i | 0 <= i < |steps| ensures steps[i].tool in known && steps[i].outputs != [] && CitationsDefined(steps, i) {
        assert StepFits(steps, known, i);
      }
    }
    if Accepted(steps, known) {
      forall i | 0 <= i < |steps| ensures StepFits(steps, known, i) {
        OutputsPrefix(steps, i + 1);
        hide Outputs;
        PrefixHasNoDuplicates(Outputs(steps[..i + 1]), Outputs(steps));
      }
    }
  }

  method CheckStep(steps: seq<Step>, known: set<string>, i: nat, before: set<string>)
    returns (fault: Option<Fault>, defined: set<string>)
    requires i < |steps| && NoDuplicates(Outputs(steps[..i])) && forall v :: v in before <==> v in Outputs(steps[..i])
    ensures fault.None? <==> StepFits(steps, known, i)
    ensures fault.Some? ==> Real(steps, known, fault.value)
    ensures fault.None? ==> forall v :: v in defined <==> v in Outputs(steps[..i + 1])
  {
    OutputsStep(steps, i);
    hide Outputs;
    defined := before;
    if steps[i].tool !in known {
      return Some(UnknownTool(i)), defined;
    }
    if steps[i].outputs == [] {
      return Some(NoOutputs(i)), defined;
    }
    var repeated;
    repeated, defined := DefineOutputs(steps[i].outputs, defined, Outputs(steps[..i]));
    if repeated.Some? {
      return Some(Redefined(i, repeated.value)), defined;
    }
    var name := FindUndefined(steps[i].args, defined, Outputs(steps[..i + 1]));
    if name.Some? {
      return Some(UndefinedVariable(i, name.value)), defined;
    }
    return None, defined;
  }

  /** `_static_check`: refuses exactly the plans that are not acceptable, and names a real fault. */
  method StaticCheck(steps: seq<Step>, known: set<string>) returns (fault: Option<Fault>)
    ensures fault.None? <==> Accepted(steps, known)
    ensures fault.Some? ==> Real(steps, known, fault.value)
  {
    AcceptedStepByStep(steps, known);
    if steps == [] {
      return Some(NoSteps);
    }
    var defined: set<string> := {};
    assert Outputs(steps[..0]) == [];
    hide Outputs, Accepted, CitationsDefined, Real;
    for i := 0 to |steps|
      invariant NoDuplicates(Outputs(steps[..i]))
      invariant forall v :: v in defined <==> v in Outputs(steps[..i])
      invariant forall k :: 0 <= k < i ==> StepFits(steps, known, k)
    {
      fault, defined := CheckStep(steps, known, i, defined);
      if fault.Some? {
        return;
      }
    }
    return None;
  }

  // The executor.

  /** One entry of the dictionary a tool returns; its value may be None. */
  datatype Field = Field(key: string, value: Option<string>)

  datatype Reply = Raised | Returned(fields: seq<Field>)

  function Get(fields: seq<Field>, key: string): Option<Field> {
    if fields == [] then None else if fields[0].key == key then Some(fields[0]) else Get(fields[1..], key)
  }

  /** The value bound to an output name: its own, else the content, else the only one there is. */
  function OutputValue(fields: seq<Field>, key: string): string {
    var own := Get(fields, key);
    var content := Get(fields, "content");
    if own.Some? && own.value.value.Some? then own.value.value.value
    else if content.Some? && content.value.value.Some? then content.value.value.value
    else if |fields| == 1 then fields[0].value.GetOr("None")
    else "None"
  }

  /** The first field of a key, if there is one. */
  lemma {:induction false} GetMeaning(fields: seq<Field>, key: string, k: nat)
    requires k <= |fields| && (forall j :: 0 <= j < k ==> fields[j].key != key) && (k < |fields| ==> fields[k].key == key)
    ensures Get(fields, key) == if k < |fields| then Some(fields[k]) else None
  {
    if k > 0 {
      forall j | 0 <= j < k - 1 ensures fields[1..][j].key != key { assert fields[1..][j] == fields[j + 1]; }
      GetMeaning(fields[1..], key, k - 1);
    }
  }

  /** No field of this key holds a value. */
  predicate Unset(fields: seq<Field>, key: string) { forall f :: f in fields && f.key == key ==> f.value == None }

  /** A field's own value is bound; without one the content is; without that the only field there is; and else the text None. */
  lemma BoundValue(fields: seq<Field>, key: string, k: nat)
    requires k < |fields| && (forall j :: 0 <= j < k ==> fields[j].key != fields[k].key)
    ensures fields[k].key == key && fields[k].value.Some? ==> OutputValue(fields, key) == fields[k].value.value
    ensures fields[k].key == "content" && fields[k].value.Some? && Unset(fields, key) ==> OutputValue(fields, key) == fields[k].value.value
  {
    GetMeaning(fields, fields[k].key, k);
    GetIsAmong(fields, key);
    hide Get;
  }

  lemma {:induction false} GetIsAmong(fields: seq<Field>, key: string)
    ensures Get(fields, key).Some? ==> Get(fields, key).value in fields && Get(fields, key).value.key == key
  {
    if fields != [] { GetIsAmong(fields[1..], key); }
  }

  lemma BoundToNothing(fields: seq<Field>, key: string)
    requires Unset(fields, key) && Unset(fields, "content")
    ensures OutputValue(fields, key) == if |fields| == 1 && fields[0].value.Some? then fields[0].value.value else "None"
  {
    GetIsAmong(fields, key);
    GetIsAmong(fields, "content");
    hide Get;
  }

  function SubstituteArg(a: Arg, variables: map<string, string>): Arg {
    if Cites(a) && Cited(a) in variables then Literal(variables[Cited(a)]) else a
  }

  function Substitute(args: seq<Binding>, variables: map<string, string>): seq<Binding> {
    seq(|args|, i requires 0 <= i < |args| => Binding(args[i].name, SubstituteArg(args[i].value, variables)))
  }

  function Bind(variables: map<string, string>, outputs: seq<string>, fields: seq<Field>): map<string, string> {
    if outputs == [] then variables
    else
      var last := outputs[|outputs| - 1];
      Bind(variables, outputs[..|outputs| - 1], fields)[last := OutputValue(fields, last)]
  }

  /** The variables once the first `n` steps have returned. */
  function VariablesAfter(steps: seq<Step>, results: seq<seq<Field>>, n: nat): map<string, string>
    requires n <= |steps| && n <= |results|
  {
    if n == 0 then map[] else Bind(VariablesAfter(steps, results, n - 1), steps[n - 1].outputs, results[n - 1])
  }

  method SubstituteArgs(args: seq<Binding>, variables: map<string, string>) returns (result: seq<Binding>)
    ensures result == Substitute(args, variables)
  {
    result := [];
    for i := 0 to |args|
      invariant |result| == i && forall j :: 0 <= j < i ==> result[j] == Substitute(args, variables)[j]
    {
      var value := args[i].value;
      if value.Literal? && value.text != "" && value.text[0] == '$' {
        var name := value.text[1..];
        value := Literal(if name in variables then variables[name] else value.text);
      }
      result := result + [Binding(args[i].name, value)];
    }
  }

  method BindOutputs(variables: map<string, string>, outputs: seq<string>, fields: seq<Field>) returns (bound: map<string, string>)
    ensures bound == Bind(variables, outputs, fields)
  {
    bound := variables;
    for i := 0 to |outputs|
      invariant bound == Bind(variables, outputs[..i], fields)
    {
      assert outputs[..i + 1][..i] == outputs[..i];
      bound := bound[outputs[i] := OutputValue(fields, outputs[i])];
    }
    assert outputs[..|outputs|] == outputs;
  }

  datatype Failure = EmptyPlan | InvalidPlan | StepFailed(index: nat)

  function ArgText(args: seq<Binding>, name: string): string {
    if args == [] then ""
    else if args[0].name == name then (if args[0].value.Literal? then args[0].value.text else "True")
    else ArgText(args[1..], name)
  }

  /** A write of nothing is refused before the tool is called. */
  predicate EmptyWrite(tool: string, args: seq<Binding>) {
    tool == "filesystem.write" && Strip(ArgText(args, "content")) == ""
  }

  predicate WritesFile(tool: string) { tool == "filesystem.write" || tool == "filesystem.edit" }

  /** The paths written by the first `n` calls. */
  function Written(steps: seq<Step>, calls: seq<seq<Binding>>, n: nat): seq<string>
    requires n <= |steps| && n <= |calls|
  {
    if n == 0 then []
    else Written(steps, calls, n - 1) + if WritesFile(steps[n - 1].tool) then [ArgText(calls[n - 1], "path")] else []
  }

  datatype FileOperation = FileOperation(operation: string, path: string, source: string, destination: string)

  /** The trace a copy, move or delete leaves for the verifier. */
  function OperationOf(tool: string, args: seq<Binding>): seq<FileOperation> {
    var operation :=
      if tool == "filesystem.copy" then "copy"
      else if tool == "filesystem.move" then "move"
      else if tool == "filesystem.delete" then "delete"
      else "";
    if operation == "" then []
    else [FileOperation(operation, ArgText(args, "path"), ArgText(args, "source"), ArgText(args, "destination"))]
  }

  /** The operations left by the first `n` calls. */
  function Operations(steps: seq<Step>, calls: seq<seq<Binding>>, n: nat): seq<FileOperation>
    requires n <= |steps| && n <= |calls|
  {
    if n == 0 then [] else Operations(steps, calls, n - 1) + OperationOf(steps[n - 1].tool, calls[n - 1])
  }

  /** Step i was attempted with its arguments substituted from the results before it. */
  ghost predicate CalledAt(steps: seq<Step>, calls: seq<seq<Binding>>, results: seq<seq<Field>>, i: nat) {
    i < |calls| && i < |steps| && i <= |results| && calls[i] == Substitute(steps[i].args, VariablesAfter(steps, results, i))
  }

  ghost predicate ReturnedAt(
    steps: seq<Step>, tool: (nat, seq<Binding>) -> Reply, calls: seq<seq<Binding>>, results: seq<seq<Field>>, i: nat)
  {
    i < |calls| && i < |steps| && i < |results| && !EmptyWrite(steps[i].tool, calls[i]) && tool(i, calls[i]) == Returned(results[i])
  }

  /** What a run did: the arguments each attempted step got and what the completed ones returned. */
  ghost predicate Ran(
    steps: seq<Step>, tool: (nat, seq<Binding>) -> Reply, calls: seq<seq<Binding>>, results: seq<seq<Field>>)
  {
    && |results| <= |calls| <= |steps|
    && (forall i :: 0 <= i < |calls| ==> CalledAt(steps, calls, results, i))
    && (forall i :: 0 <= i < |results| ==> ReturnedAt(steps, tool, calls, results, i))
  }

  lemma {:induction false} VariablesOfPrefix(steps: seq<Step>, results: seq<seq<Field>>, more: seq<seq<Field>>, n: nat)
    requires n <= |steps| && n <= |results| && results <= more
    ensures VariablesAfter(steps, results, n) == VariablesAfter(steps, more, n)
  {
    if n > 0 {
      VariablesOfPrefix(steps, results, more, n - 1);
      assert results[n - 1] == more[n - 1];
    }
  }

  /** One more step, attempted with arguments substituted from the results so far. */
  lemma Attempted(steps: seq<Step>, tool: (nat, seq<Binding>) -> Reply, calls: seq<seq<Binding>>, results: seq<seq<Field>>)
    requires Ran(steps, tool, calls, results) && |calls| == |results| < |steps|
    ensures Ran(steps, tool, calls + [Substitute(steps[|calls|].args, VariablesAfter(steps, results, |results|))], results)
  {
    var more := calls + [Substitute(steps[|calls|].args, VariablesAfter(steps, results, |results|))];
    hide Substitute, VariablesAfter, EmptyWrite;
    forall i | 0 <= i < |more| ensures CalledAt(steps, more, results, i) {
      if i < |calls| { assert CalledAt(steps, calls, results, i); }
    }
    forall i | 0 <= i < |results| ensures ReturnedAt(steps, tool, more, results, i) {
      assert ReturnedAt(steps, tool, calls, results, i);
    }
  }

  lemma NextVariables(steps: seq<Step>, results: seq<seq<Field>>, fields: seq<Field>)
    requires |results| < |steps|
    ensures VariablesAfter(steps, results + [fields], |results| + 1) ==
            Bind(VariablesAfter(steps, results, |results|), steps[|results|].outputs, fields)
  {
    hide Bind;
    VariablesOfPrefix(steps, results, results + [fields], |results|);
  }

  lemma Completed(steps: seq<Step>, tool: (nat, seq<Binding>) -> Reply, calls: seq<seq<Binding>>, results: seq<seq<Field>>, fields: seq<Field>)
    requires Ran(steps, tool, calls, results) && |calls| == |results| + 1
    requires var i := |results|; !EmptyWrite(steps[i].tool, calls[i]) && tool(i, calls[i]) == Returned(fields)
    ensures Ran(steps, tool, calls, results + [fields])
  {
    hide Substitute, EmptyWrite;
    var more := results + [fields];
    forall i | 0 <= i < |calls| ensures CalledAt(steps, calls, more, i) {
      assert CalledAt(steps, calls, results, i);
      VariablesOfPrefix(steps, results, more, i);
    }
    forall i | 0 <= i < |more| ensures ReturnedAt(steps, tool, calls, more, i) {
      if i < |results| { assert ReturnedAt(steps, tool, calls, results, i); }
    }
  }

  lemma {:induction false} WrittenOfPrefix(steps: seq<Step>, calls: seq<seq<Binding>>, more: seq<seq<Binding>>, n: nat)
    requires n <= |steps| && n <= |calls| && calls <= more
    ensures Written(steps, calls, n) == Written(steps, more, n) && Operations(steps, calls, n) == Operations(steps, more, n)
  {
    hide ArgText, OperationOf, WritesFile;
    if n > 0 {
      WrittenOfPrefix(steps, calls, more, n - 1);
      assert calls[n - 1] == more[n - 1];
    }
  }

  predicate AllAvailable(steps: seq<Step>, available: set<string>) { forall i :: 0 <= i < |steps| ==> steps[i].tool in available }

  /** `PlanExecutor.execute`: steps in order, until one fails. */
  method Execute(steps: seq<Step>, available: set<string>, tool: (nat, seq<Binding>) -> Reply)
    returns (failure: Option<Failure>, variables: map<string, string>, toolsCalled: seq<string>, filesWritten: seq<string>,
             fileOperations: seq<FileOperation>, ghost calls: seq<seq<Binding>>, ghost results: seq<seq<Field>>)
    ensures Ran(steps, tool, calls, results)
    ensures failure == Some(EmptyPlan) <==> steps == []
    ensures failure == Some(InvalidPlan) <==> steps != [] && !AllAvailable(steps, available)
    ensures failure == Some(EmptyPlan) || failure == Some(InvalidPlan) ==> calls == []
    ensures failure == None ==> |results| == |steps|
    ensures failure.Some? && failure.value.StepFailed? ==>
              var i := failure.value.index;
              i == |results| && |calls| == i + 1 && (EmptyWrite(steps[i].tool, calls[i]) || tool(i, calls[i]) == Raised)
    ensures variables == VariablesAfter(steps, results, |results|)
    ensures |toolsCalled| == |calls| && forall i :: 0 <= i < |calls| ==> toolsCalled[i] == steps[i].tool
    ensures filesWritten == Written(steps, calls, |results|) && fileOperations == Operations(steps, calls, |results|)
  {
    hide Substitute, Bind, EmptyWrite, ArgText, WritesFile, OperationOf, CalledAt, ReturnedAt;
    failure, variables, toolsCalled, filesWritten, fileOperations := None, map[], [], [], [];
    calls, results := [], [];
    if steps == [] {
      failure := Some(EmptyPlan);
      return;
    }
    if exists i | 0 <= i < |steps| :: steps[i].tool !in available {
      failure := Some(InvalidPlan);
      return;
    }
    for i := 0 to |steps|
      invariant Ran(steps, tool, calls, results) && |calls| == |results| == i
      invariant variables == VariablesAfter(steps, results, i)
      invariant |toolsCalled| == i && forall k :: 0 <= k < i ==> toolsCalled[k] == steps[k].tool
      invariant filesWritten == Written(steps, calls, i) && fileOperations == Operations(steps, calls, i)
      invariant failure == None
    {
      toolsCalled := toolsCalled + [steps[i].tool];
      var args := SubstituteArgs(steps[i].args, variables);
      Attempted(steps, tool, calls, results);
      WrittenOfPrefix(steps, calls, calls + [args], i);
      calls := calls + [args];
      if EmptyWrite(steps[i].tool, args) {
        failure := Some(StepFailed(i));
        return;
      }
      var reply := tool(i, args);
      if reply.Raised? {
        failure := Some(StepFailed(i));
        return;
      }
      Completed(steps, tool, calls, results, reply.fields);
      NextVariables(steps, results, reply.fields);
      results := results + [reply.fields];
      if WritesFile(steps[i].tool) {
        filesWritten := filesWritten + [ArgText(args, "path")];
      }
      fileOperations := fileOperations + OperationOf(steps[i].tool, args);
      variables := BindOutputs(variables, steps[i].outputs, reply.fields);
    }
  }

  // What acceptance promises the executor.

  lemma {:induction false} BindMeaning(variables: map<string, string>, outputs: seq<string>, fields: seq<Field>)
    ensures Bind(variables, outputs, fields).Keys == variables.Keys + (set v | v in outputs)
    ensures forall v :: v in outputs ==> Bind(variables, outputs, fields)[v] == OutputValue(fields, v)
    ensures forall v :: v in variables && v !in outputs ==> Bind(variables, outputs, fields)[v] == variables[v]
  {
    if outputs != [] {
      var front, last := outputs[..|outputs| - 1], outputs[|outputs| - 1];
      BindMeaning(variables, front, fields);
      assert outputs == front + [last];
    }
  }

  lemma {:induction false} VariablesDomain(steps: seq<Step>, results: seq<seq<Field>>, n: nat)
    requires n <= |steps| && n <= |results|
    ensures forall v :: v in VariablesAfter(steps, results, n) <==> v in Outputs(steps[..n])
  {
    if n > 0 {
      VariablesDomain(steps, results, n - 1);
      OutputsStep(steps, n - 1);
      BindMeaning(VariablesAfter(steps, results, n - 1), steps[n - 1].outputs, results[n - 1]);
    }
  }

  lemma TwiceIsDuplicate(a: seq<string>, b: seq<string>, v: string)
    requires v in a && v in b
    ensures !NoDuplicates(a + b)
  {
    var p :| 0 <= p < |a| && a[p] == v;
    var q :| 0 <= q < |b| && b[q] == v;
    assert (a + b)[p] == (a + b)[|a| + q];
  }

  lemma ProducedBefore(steps: seq<Step>, j: nat, k: nat, v: string)
    requires j < k <= |steps| && v in steps[j].outputs
    ensures v in Outputs(steps[..k])
  {
    OutputsStep(steps, j);
    OutputsPrefix(steps[..k], j + 1);
    assert steps[..k][..j + 1] == steps[..j + 1];
    hide Outputs;
    assert v in Outputs(steps[..j + 1]);
  }

  /** Steps of an accepted plan define different variables. */
  lemma OutputsApart(steps: seq<Step>, j: nat, k: nat, v: string)
    requires NoDuplicates(Outputs(steps)) && j < k < |steps| && v in steps[j].outputs
    ensures v !in steps[k].outputs
  {
    hide *;
    ProducedBefore(steps, j, k, v);
    OutputsStep(steps, k);
    OutputsPrefix(steps, k + 1);
    PrefixHasNoDuplicates(Outputs(steps[..k + 1]), Outputs(steps));
    if v in steps[k].outputs {
      TwiceIsDuplicate(Outputs(steps[..k]), steps[k].outputs, v);
    }
  }

  /** Single assignment: a variable keeps the value of the step that produced it. */
  lemma {:induction false} ValueIsKept(steps: seq<Step>, results: seq<seq<Field>>, n: nat, j: nat, v: string)
    requires NoDuplicates(Outputs(steps)) && j < n <= |steps| && n <= |results| && v in steps[j].outputs
    ensures v in VariablesAfter(steps, results, n) && VariablesAfter(steps, results, n)[v] == OutputValue(results[j], v)
  {
    BindMeaning(VariablesAfter(steps, results, n - 1), steps[n - 1].outputs, results[n - 1]);
    if j < n - 1 {
      ValueIsKept(steps, results, n - 1, j, v);
      OutputsApart(steps, j, n - 1, v);
    }
  }

  lemma {:induction false} ProducerOf(steps: seq<Step>, n: nat, v: string) returns (j: nat)
    requires n <= |steps| && v in Outputs(steps[..n])
    ensures j < n && v in steps[j].outputs
  {
    OutputsStep(steps, n - 1);
    if v in steps[n - 1].outputs { j := n - 1; } else { j := ProducerOf(steps, n - 1, v); }
  }

  /**
   * In an accepted plan a reference becomes the value of an earlier step, unless the step cites its own
   * output: the check lets that through and the executor then leaves the reference literal.
   */
  lemma CitationResolves(steps: seq<Step>, known: set<string>, results: seq<seq<Field>>, i: nat, b: Binding)
    requires Accepted(steps, known) && i < |steps| && i <= |results| && b in steps[i].args && Cites(b.value)
    ensures Cited(b.value) in VariablesAfter(steps, results, i) <==> Cited(b.value) !in steps[i].outputs
    ensures Cited(b.value) in steps[i].outputs ==> SubstituteArg(b.value, VariablesAfter(steps, results, i)) == b.value
    ensures Cited(b.value) !in steps[i].outputs ==>
              exists j | 0 <= j < i :: Cited(b.value) in steps[j].outputs
                && SubstituteArg(b.value, VariablesAfter(steps, results, i)) == Literal(OutputValue(results[j], Cited(b.value)))
  {
    var v := Cited(b.value);
    assert CitationsDefined(steps, i);
    OutputsStep(steps, i);
    VariablesDomain(steps, results, i);
    if v in Outputs(steps[..i]) {
      var j := ProducerOf(steps, i, v);
      OutputsApart(steps, j, i, v);
      ValueIsKept(steps, results, i, j, v);
    }
  }

  predicate CitesItself(s: Step) { exists b | b in s.args :: Cites(b.value) && Cited(b.value) in s.outputs }

  predicate AllResolved(args: seq<Binding>, variables: map<string, string>) {
    forall b :: b in args && Cites(b.value) ==> Cited(b.value) in variables
  }

  /** All references of an accepted plan are replaced exactly when no step cites its own output. */
  lemma AllReferencesResolve(steps: seq<Step>, known: set<string>, results: seq<seq<Field>>)
    requires Accepted(steps, known) && |steps| <= |results|
    ensures (forall i :: 0 <= i < |steps| ==> AllResolved(steps[i].args, VariablesAfter(steps, results, i)))
            <==> (forall i :: 0 <= i < |steps| ==> !CitesItself(steps[i]))
  {
    forall i | 0 <= i < |steps|
      ensures AllResolved(steps[i].args, VariablesAfter(steps, results, i)) <==> !CitesItself(steps[i])
    {
      forall b | b in steps[i].args && Cites(b.value)
        ensures Cited(b.value) in VariablesAfter(steps, results, i) <==> Cited(b.value) !in steps[i].outputs
      {
        CitationResolves(steps, known, results, i, b);
      }
    }
  }

  // Lowering a stage's bound tool.

  datatype Branch = ReadFile | RunPython | WebSearch | WriteFile | CopyFile | MoveFile | DeleteFile

  /** `bound_tool_dispatch`: the first applicable branch. */
  function Dispatch(allowed: seq<string>, params: set<string>): Option<Branch> {
    if "read_file" in allowed && "path" in params then Some(ReadFile)
    else if "run_python" in allowed && "code" in params then Some(RunPython)
    else if "web_search" in allowed && ("query" in params || "path" in params) then Some(WebSearch)
    else if "write_file" in allowed && "path" in params && "content" in params then Some(WriteFile)
    else if "copy_file" in allowed && "source" in params && "destination" in params then Some(CopyFile)
    else if "move_file" in allowed && "source" in params && "destination" in params then Some(MoveFile)
    else if "delete_file" in allowed && "path" in params then Some(DeleteFile)
    else None
  }

  /** The text of an input; absent and None alike read as None. */
  function Input(inputs: map<string, Option<string>>, name: string): Option<string> {
    if name in inputs then inputs[name] else None
  }

  function Str(value: Option<string>): string { value.GetOr("None") }

  function Query(inputs: map<string, Option<string>>): string {
    Str(if Input(inputs, "query").Some? then Input(inputs, "query") else Input(inputs, "path"))
  }

  function Mode(inputs: map<string, Option<string>>): string {
    var mode := Input(inputs, "mode").GetOr("");
    if mode == "" then "overwrite" else mode
  }

  function Transfer(tool: string, inputs: map<string, Option<string>>): Step {
    Step(tool,
         [Binding("source", Literal(Str(Input(inputs, "source")))), Binding("destination", Literal(Str(Input(inputs, "destination")))),
          Binding("exact", Flag)],
         ["result"])
  }

  function StepsOf(branch: Branch, inputs: map<string, Option<string>>): seq<Step> {
    match branch
    case ReadFile => [Step("filesystem.read", [Binding("path", Literal(Str(Input(inputs, "path"))))], ["content"])]
    case RunPython => [Step("run_python", [Binding("code", Literal(Str(Input(inputs, "code"))))], ["result"])]
    case WebSearch =>
      var timeliness := Input(inputs, "timeliness");
      [Step("web_search",
            [Binding("query", Literal(Query(inputs)))]
            + (if timeliness.Some? then [Binding("timeliness", Literal(timeliness.value))] else []),
            ["results"])]
    case WriteFile =>
      [Step("workspace", [Binding("spec", Literal(Str(Input(inputs, "path"))))], ["path"]),
       Step("filesystem.write",
            [Binding("path", Literal("$path")), Binding("content", Literal(Str(Input(inputs, "content")))), Binding("mode", Literal(Mode(inputs)))],
            ["result"])]
    case CopyFile => [Transfer("filesystem.copy", inputs)]
    case MoveFile => [Transfer("filesystem.move", inputs)]
    case DeleteFile =>
      [Step("filesystem.delete", [Binding("path", Literal(Str(Input(inputs, "path")))), Binding("exact", Flag)], ["result"])]
  }

  /** `_lower_bound_tool`. */
  function LowerBoundTool(byTool: bool, allowed: seq<string>, inputs: map<string, Option<string>>): Option<seq<Step>> {
    if !byTool || allowed == [] || inputs == map[] then None
    else
      match Dispatch(allowed, set name | name in inputs && inputs[name].Some?)
      case Some(branch) => Some(StepsOf(branch, inputs))
      case None => None
  }

  /** A text that is no reference, or refers to one of these names. */
  predicate CitesOnly(text: string, names: seq<string>) { Cites(Literal(text)) ==> Cited(Literal(text)) in names }

  predicate BoundValuesFit(branch: Branch, inputs: map<string, Option<string>>) {
    match branch
    case ReadFile => CitesOnly(Str(Input(inputs, "path")), ["content"])
    case RunPython => CitesOnly(Str(Input(inputs, "code")), ["result"])
    case WebSearch =>
      CitesOnly(Query(inputs), ["results"]) && (Input(inputs, "timeliness").Some? ==> CitesOnly(Input(inputs, "timeliness").value, ["results"]))
    case WriteFile =>
      && CitesOnly(Str(Input(inputs, "path")), ["path"])
      && CitesOnly(Str(Input(inputs, "content")), ["path", "result"]) && CitesOnly(Mode(inputs), ["path", "result"])
    case CopyFile => CitesOnly(Str(Input(inputs, "source")), ["result"]) && CitesOnly(Str(Input(inputs, "destination")), ["result"])
    case MoveFile => CitesOnly(Str(Input(inputs, "source")), ["result"]) && CitesOnly(Str(Input(inputs, "destination")), ["result"])
    case DeleteFile => CitesOnly(Str(Input(inputs, "path")), ["result"])
  }

  predicate CitesFit(args: seq<Binding>, names: seq<string>) { forall b :: b in args ==> !Undefined(names, b) }

  lemma OneStep(s: Step, known: set<string>)
    requires s.tool in known && |s.outputs| == 1
    ensures Accepted([s], known) <==> CitesFit(s.args, s.outputs)
  {
    OutputsStep([s], 0);
    assert [s][..1] == [s] && [s][..0] == [];
    assert CitationsDefined([s], 0) <==> CitesFit(s.args, s.outputs);
  }

  lemma TwoSteps(s: Step, t: Step, known: set<string>)
    requires s.tool in known && t.tool in known && |s.outputs| == |t.outputs| == 1 && s.outputs[0] != t.outputs[0]
    ensures Accepted([s, t], known) <==> CitesFit(s.args, s.outputs) && CitesFit(t.args, s.outputs + t.outputs)
  {
    var steps := [s, t];
    OutputsStep(steps, 0);
    OutputsStep(steps, 1);
    assert steps[..0] == [] && steps[..1] == [s] && steps[..2] == steps;
    assert CitationsDefined(steps, 0) <==> CitesFit(s.args, s.outputs);
    assert CitationsDefined(steps, 1) <==> CitesFit(t.args, s.outputs + t.outputs);
  }

  lemma Fits1(name: string, text: string, names: seq<string>)
    ensures CitesFit([Binding(name, Literal(text))], names) <==> CitesOnly(text, names)
    ensures CitesFit([Binding(name, Literal(text)), Binding("exact", Flag)], names) <==> CitesOnly(text, names)
  {
    var b := Binding(name, Literal(text));
    assert b in [b] && b in [b, Binding("exact", Flag)];
  }

  lemma FitsAppend(a: seq<Binding>, b: seq<Binding>, names: seq<string>)
    ensures CitesFit(a + b, names) <==> CitesFit(a, names) && CitesFit(b, names)
  {
    assert forall x :: x in a ==> x in a + b;
    assert forall x :: x in b ==> x in a + b;
  }

  lemma FitsTransfer(tool: string, inputs: map<string, Option<string>>)
    ensures CitesFit(Transfer(tool, inputs).args, ["result"]) <==>
            CitesOnly(Str(Input(inputs, "source")), ["result"]) && CitesOnly(Str(Input(inputs, "destination")), ["result"])
  {
    var source, destination := Str(Input(inputs, "source")), Str(Input(inputs, "destination"));
    Fits1("source", source, ["result"]);
    Fits1("destination", destination, ["result"]);
    FitsAppend([Binding("source", Literal(source))], [Binding("destination", Literal(destination)), Binding("exact", Flag)], ["result"]);
    assert Transfer(tool, inputs).args ==
           [Binding("source", Literal(source))] + [Binding("destination", Literal(destination)), Binding("exact", Flag)];
  }

  lemma FitsWrite(inputs: map<string, Option<string>>)
    ensures CitesFit(StepsOf(WriteFile, inputs)[1].args, ["path", "result"]) <==>
            CitesOnly(Str(Input(inputs, "content")), ["path", "result"]) && CitesOnly(Mode(inputs), ["path", "result"])
  {
    var content, mode, names := Str(Input(inputs, "content")), Mode(inputs), ["path", "result"];
    Fits1("path", "$path", names);
    Fits1("content", content, names);
    Fits1("mode", mode, names);
    FitsAppend([Binding("content", Literal(content))], [Binding("mode", Literal(mode))], names);
    FitsAppend([Binding("path", Literal("$path"))], [Binding("content", Literal(content))] + [Binding("mode", Literal(mode))], names);
    assert StepsOf(WriteFile, inputs)[1].args ==
           [Binding("path", Literal("$path"))] + ([Binding("content", Literal(content))] + [Binding("mode", Literal(mode))]);
    assert "$path"[1..] == "path" && names[0] == "path";
  }

  predicate ToolsKnown(steps: seq<Step>, known: set<string>) { forall s :: s in steps ==> s.tool in known }

  /** A lowered plan passes the static check exactly when its bound values cite nothing but what the plan defines by then. */
  lemma LoweredPlanPasses(branch: Branch, inputs: map<string, Option<string>>, known: set<string>)
    requires ToolsKnown(StepsOf(branch, inputs), known)
    ensures Accepted(StepsOf(branch, inputs), known) <==> BoundValuesFit(branch, inputs)
  {
    var steps := StepsOf(branch, inputs);
    assert steps[0] in steps;
    match branch
    case ReadFile =>
      OneStep(steps[0], known);
      Fits1("path", Str(Input(inputs, "path")), ["content"]);
    case RunPython =>
      OneStep(steps[0], known);
      Fits1("code", Str(Input(inputs, "code")), ["result"]);
    case WebSearch =>
      OneStep(steps[0], known);
      Fits1("query", Query(inputs), ["results"]);
      var timeliness := Input(inputs, "timeliness");
      if timeliness.Some? {
        Fits1("timeliness", timeliness.value, ["results"]);
        FitsAppend([Binding("query", Literal(Query(inputs)))], [Binding("timeliness", Literal(timeliness.value))], ["results"]);
      } else {
        assert steps[0].args == [Binding("query", Literal(Query(inputs)))];
      }
    case WriteFile =>
      assert steps[1] in steps;
      assert "path" != "result";
      TwoSteps(steps[0], steps[1], known);
      Fits1("spec", Str(Input(inputs, "path")), ["path"]);
      FitsWrite(inputs);
      assert steps[0].outputs + steps[1].outputs == ["path", "result"];
    case CopyFile =>
      OneStep(steps[0], known);
      FitsTransfer("filesystem.copy", inputs);
    case MoveFile =>
      OneStep(steps[0], known);
      FitsTransfer("filesystem.move", inputs);
    case DeleteFile =>
      OneStep(steps[0], known);
      Fits1("path", Str(Input(inputs, "path")), ["result"]);
  }

  predicate PlainInputs(inputs: map<string, Option<string>>) {
    forall name :: name in inputs && inputs[name].Some? ==> !Cites(Literal(inputs[name].value))
  }

  lemma PlainValue(inputs: map<string, Option<string>>, name: string)
    requires PlainInputs(inputs)
    ensures !Cites(Literal(Str(Input(inputs, name))))
  {
  }

  lemma PlainValuesFit(branch: Branch, inputs: map<string, Option<string>>)
    requires PlainInputs(inputs)
    ensures BoundValuesFit(branch, inputs)
  {
    PlainValue(inputs, "path");
    PlainValue(inputs, "query");
    PlainValue(inputs, "code");
    PlainValue(inputs, "content");
    PlainValue(inputs, "source");
    PlainValue(inputs, "destination");
  }

  lemma PlainStepsCiteNoOutput(branch: Branch, inputs: map<string, Option<string>>)
    requires PlainInputs(inputs)
    ensures forall s :: s in StepsOf(branch, inputs) ==> !CitesItself(s)
  {
    PlainValue(inputs, "path");
    PlainValue(inputs, "query");
    PlainValue(inputs, "code");
    PlainValue(inputs, "content");
    PlainValue(inputs, "source");
    PlainValue(inputs, "destination");
    assert "$path"[1..] == "path" && "path" != "result";
    hide Str, Input;
  }

  /** With no bound value starting with `$`, a lowered plan passes and every reference in it is replaced when it runs. */
  lemma PlainInputsLowerWell(byTool: bool, allowed: seq<string>, inputs: map<string, Option<string>>, known: set<string>)
    requires PlainInputs(inputs) && LowerBoundTool(byTool, allowed, inputs).Some?
    requires ToolsKnown(LowerBoundTool(byTool, allowed, inputs).value, known)
    ensures Accepted(LowerBoundTool(byTool, allowed, inputs).value, known)
    ensures forall s :: s in LowerBoundTool(byTool, allowed, inputs).value ==> !CitesItself(s)
  {
    var branch := Dispatch(allowed, set name | name in inputs && inputs[name].Some?).value;
    hide StepsOf, Dispatch, CitesItself, Accepted, BoundValuesFit, ToolsKnown, PlainInputs;
    PlainValuesFit(branch, inputs);
    LoweredPlanPasses(branch, inputs, known);
    PlainStepsCiteNoOutput(branch, inputs);
  }

  /** A written content that reads `$path` is accepted and replaced by the resolved path; `$result` is accepted and written as it stands. */
  lemma WrittenContentMayBeReplaced(inputs: map<string, Option<string>>, known: set<string>, results: seq<seq<Field>>, content: string)
    requires ToolsKnown(StepsOf(WriteFile, inputs), known) && Input(inputs, "content") == Some(content)
    requires !Cites(Literal(Str(Input(inputs, "path")))) && !Cites(Literal(Mode(inputs))) && |results| == 2
    ensures content == "$path" || content == "$result" ==> Accepted(StepsOf(WriteFile, inputs), known)
    ensures SubstituteArg(Literal(content), VariablesAfter(StepsOf(WriteFile, inputs), results, 1)) ==
            Literal(if content == "$path" then OutputValue(results[0], "path") else content)
  {
    LoweredPlanPasses(WriteFile, inputs, known);
    var steps := StepsOf(WriteFile, inputs);
    assert "$path"[1..] == "path" && "$result"[1..] == "result";
    assert ["path", "result"][0] == "path" && ["path", "result"][1] == "result";
    BindMeaning(map[], ["path"], results[0]);
    assert VariablesAfter(steps, results, 0) == map[];
    if Cites(Literal(content)) {
      assert content == ['$'] + content[1..];
      assert Cited(Literal(content)) == "path" ==> content == "$path";
    }
  }
}

/** How one model step's tool calls run: bounded overlap, exclusive barriers, results in model order. */
module Scheduling {
  import opened Text

  const MAX_PARALLEL_TOOL_CALLS: nat := 4
  const TOOL_RESULT_CHAR_CAP: nat := 8000
  const INVALID_ARGUMENTS := "__invalid_arguments__"

  datatype Tool = Tool(concurrencySafe: bool, required: seq<string>)

  datatype ToolCall = ToolCall(id: string, name: string, arguments: map<string, string>)

  /** What executing a call came to. */
  datatype Reply = Reply(ok: bool, errorCode: string, content: string)

  datatype Message = Message(callId: string, name: string, content: string)

  function ToolMessage(call: ToolCall, content: string, ok: bool, errorCode: string): Message {
    var prefix := if ok then "" else "ERROR[" + (if errorCode != "" then errorCode else "TOOL_ERROR") + "]: ";
    Message(call.id, call.name, prefix + if |content| <= TOOL_RESULT_CHAR_CAP then content else content[..TOOL_RESULT_CHAR_CAP])
  }

  function Missing(required: seq<string>, arguments: map<string, string>): seq<string> {
    if required == [] then []
    else (if required[0] in arguments then [] else [required[0]]) + Missing(required[1..], arguments)
  }

  /** The refusal of a call that names no tool or lacks arguments; such a call is never executed. */
  function Refusal(call: ToolCall, tools: map<string, Tool>): Option<Message> {
    if call.name !in tools then Some(ToolMessage(call, "未知工具 " + call.name, false, "UNKNOWN_TOOL"))
    else if INVALID_ARGUMENTS in call.arguments then
      Some(ToolMessage(call, "arguments 不是合法 JSON，请重新构造参数", false, "INVALID_TOOL_ARGUMENT"))
    else
      var missing := Missing(tools[call.name].required, call.arguments);
      if missing != [] then Some(ToolMessage(call, "缺少必需参数: " + Join(", ", missing), false, "INVALID_TOOL_ARGUMENT"))
      else None
  }

  function Answer(call: ToolCall, tools: map<string, Tool>, reply: Reply): (m: Message)
    ensures Answers(m, call, tools)
  {
    match Refusal(call, tools)
    case Some(refusal) => refusal
    case None => ToolMessage(call, reply.content, reply.ok, reply.errorCode)
  }

  /** A message that can only be the answer to this call. */
  predicate Answers(m: Message, call: ToolCall, tools: map<string, Tool>) {
    m.callId == call.id && m.name == call.name && (Refusal(call, tools).Some? ==> m == Refusal(call, tools).value)
  }

  /** The content of a message that carries a reply: cut to 8000 characters, after an error prefix exactly when the reply is not ok. */
  predicate Carries(content: string, reply: Reply) {
    content ==
    (if reply.ok then "" else if reply.errorCode == "" then "ERROR[TOOL_ERROR]: " else "ERROR[" + reply.errorCode + "]: ")
    + if |reply.content| <= 8000 then reply.content else reply.content[..8000]
  }

  /** A call that is executed is answered with what the tool replied at some moment. */
  ghost predicate Heard(m: Message, call: ToolCall, tools: map<string, Tool>, replies: (nat, nat) -> Reply, k: nat) {
    Refusal(call, tools).None? ==> exists moment: nat :: Carries(m.content, replies(k, moment))
  }

  lemma AnswerIsHeard(call: ToolCall, tools: map<string, Tool>, replies: (nat, nat) -> Reply, k: nat, moment: nat)
    ensures Heard(Answer(call, tools, replies(k, moment)), call, tools, replies, k)
  {
    hide Refusal;
    if Refusal(call, tools).None? {
      assert Carries(Answer(call, tools, replies(k, moment)).content, replies(k, moment));
    }
  }

  /** The missing names are the required ones without an argument, in their order. */
  lemma {:induction false} MissingInOrder(first: seq<string>, second: seq<string>, arguments: map<string, string>)
    ensures Missing(first + second, arguments) == Missing(first, arguments) + Missing(second, arguments)
  {
    if first == [] {
      assert first + second == second;
    } else {
      assert (first + second)[1..] == first[1..] + second;
      MissingInOrder(first[1..], second, arguments);
    }
  }

  lemma {:induction false} MissingMeaning(required: seq<string>, arguments: map<string, string>)
    ensures forall name :: name in Missing(required, arguments) <==> name in required && name !in arguments
    ensures Missing(required, arguments) == [] <==> forall name :: name in required ==> name in arguments
    ensures |required| == 1 && required[0] !in arguments ==> Missing(required, arguments) == required
  {
    if required != [] {
      MissingMeaning(required[1..], arguments);
      assert required == [required[0]] + required[1..];
    }
  }

  /** A call is executed exactly when its tool is known, its arguments parse and no required one is missing. */
  lemma RefusedExactly(call: ToolCall, tools: map<string, Tool>)
    ensures Refusal(call, tools).None? <==>
              && call.name in tools && "__invalid_arguments__" !in call.arguments
              && forall name :: name in tools[call.name].required ==> name in call.arguments
  {
    if call.name in tools { MissingMeaning(tools[call.name].required, call.arguments); }
    hide Missing, Join, ToolMessage;
  }

  /** What a refused call is told. */
  lemma RefusalSays(call: ToolCall, tools: map<string, Tool>)
    requires Refusal(call, tools).Some?
    ensures Refusal(call, tools).value.callId == call.id && Refusal(call, tools).value.name == call.name
    ensures Carries(
              Refusal(call, tools).value.content,
              if call.name !in tools then Reply(false, "UNKNOWN_TOOL", "未知工具 " + call.name)
              else if "__invalid_arguments__" in call.arguments
              then Reply(false, "INVALID_TOOL_ARGUMENT", "arguments 不是合法 JSON，请重新构造参数")
              else Reply(false, "INVALID_TOOL_ARGUMENT", "缺少必需参数: " + Join(", ", Missing(tools[call.name].required, call.arguments))))
  {
    hide Missing, Join;
  }

  // Traces of a step, in any order of completion.

  datatype Event = Started(k: nat, index: nat) | Finished(k: nat, message: Message)

  datatype Flight = Flight(running: set<nat>, done: map<nat, Message>)

  function Advance(f: Flight, e: Event): Flight {
    match e
    case Started(k, _) => f.(running := f.running + {k})
    case Finished(k, m) => Flight(f.running - {k}, f.done[k := m])
  }

  function After(trace: seq<Event>): Flight {
    if trace == [] then Flight({}, map[]) else Advance(After(trace[..|trace| - 1]), trace[|trace| - 1])
  }

  predicate Safe(calls: seq<ToolCall>, tools: map<string, Tool>, k: nat) {
    k < |calls| && calls[k].name in tools && tools[calls[k].name].concurrencySafe
  }

  /**
   * A call starts once, under its own index, with at most three others running. A safe one joins
   * only safe ones and waits for every earlier unsafe call; an unsafe or unknown one waits for all earlier calls and runs alone.
   */
  predicate MayHappen(calls: seq<ToolCall>, tools: map<string, Tool>, base: nat, f: Flight, e: Event) {
    match e
    case Started(k, index) =>
      && k < |calls| && k !in f.running && k !in f.done && index == base + k + 1 && |f.running| < MAX_PARALLEL_TOOL_CALLS
      && if Safe(calls, tools, k)
         then (forall r :: r in f.running ==> Safe(calls, tools, r)) && (forall j :: 0 <= j < k && !Safe(calls, tools, j) ==> j in f.done)
         else f.running == {} && (forall j :: 0 <= j < k ==> j in f.done)
    case Finished(k, m) => k < |calls| && k in f.running && Answers(m, calls[k], tools)
  }

  predicate Disciplined(calls: seq<ToolCall>, tools: map<string, Tool>, base: nat, trace: seq<Event>) {
    trace == []
    || (Disciplined(calls, tools, base, trace[..|trace| - 1])
        && MayHappen(calls, tools, base, After(trace[..|trace| - 1]), trace[|trace| - 1]))
  }

  lemma Extend(calls: seq<ToolCall>, tools: map<string, Tool>, base: nat, trace: seq<Event>, e: Event)
    requires Disciplined(calls, tools, base, trace) && MayHappen(calls, tools, base, After(trace), e)
    ensures Disciplined(calls, tools, base, trace + [e]) && After(trace + [e]) == Advance(After(trace), e)
  {
    assert (trace + [e])[..|trace|] == trace;
  }

  function Range(lo: nat, hi: nat): (r: set<nat>)
    requires lo <= hi
    ensures |r| == hi - lo
    ensures forall k :: k in r <==> lo <= k < hi
    decreases hi
  {
    if lo == hi then {} else Range(lo, hi - 1) + {hi - 1}
  }

  /** Between batches nothing runs and exactly the first `n` calls are done. */
  ghost predicate Settled(calls: seq<ToolCall>, tools: map<string, Tool>, base: nat, trace: seq<Event>, n: nat) {
    && Disciplined(calls, tools, base, trace)
    && After(trace).running == {}
    && (forall k :: k in After(trace).done <==> 0 <= k < n)
  }

  /** The middle of a batch: which of its calls wait, run and are finished. */
  ghost predicate MidBatch(
    calls: seq<ToolCall>, tools: map<string, Tool>, base: nat, before: seq<Event>, trace: seq<Event>,
    lo: nat, hi: nat, waiting: set<nat>, running: set<nat>, finished: map<nat, Message>)
  {
    && Disciplined(calls, tools, base, trace)
    && After(trace) == Flight(running, After(before).done + finished)
    && Split(lo, hi, waiting, running, finished.Keys)
  }

  ghost predicate Split(lo: nat, hi: nat, waiting: set<nat>, running: set<nat>, finished: set<nat>) {
    && (forall k :: lo <= k < hi <==> k in waiting || k in running || k in finished)
    && waiting !! running && waiting !! finished && running !! finished
    && |waiting| + |running| <= hi - lo
  }

  lemma SplitMoves(lo: nat, hi: nat, waiting: set<nat>, running: set<nat>, finished: set<nat>, k: nat)
    requires Split(lo, hi, waiting, running, finished)
    ensures k in waiting ==> Split(lo, hi, waiting - {k}, running + {k}, finished)
    ensures k in running ==> Split(lo, hi, waiting, running - {k}, finished + {k})
  {
  }

  lemma PutLast<K, V>(a: map<K, V>, b: map<K, V>, k: K, v: V)
    ensures (a + b)[k := v] == a + b[k := v] && b[k := v].Keys == b.Keys + {k}
  {
  }

  /** A batch is one call, or at most four safe ones. */
  predicate IsBatch(calls: seq<ToolCall>, tools: map<string, Tool>, lo: nat, hi: nat) {
    lo < hi <= |calls| && hi - lo <= MAX_PARALLEL_TOOL_CALLS && (hi == lo + 1 || forall k :: lo <= k < hi ==> Safe(calls, tools, k))
  }

  lemma StartOne(
    calls: seq<ToolCall>, tools: map<string, Tool>, base: nat, before: seq<Event>, trace: seq<Event>,
    lo: nat, hi: nat, waiting: set<nat>, running: set<nat>, finished: map<nat, Message>, k: nat)
    requires IsBatch(calls, tools, lo, hi) && Settled(calls, tools, base, before, lo)
    requires MidBatch(calls, tools, base, before, trace, lo, hi, waiting, running, finished) && k in waiting
    ensures MidBatch(calls, tools, base, before, trace + [Started(k, base + k + 1)], lo, hi, waiting - {k}, running + {k}, finished)
    ensures 2 * |waiting - {k}| + |running + {k}| < 2 * |waiting| + |running|
  {
    var e := Started(k, base + k + 1);
    SplitMoves(lo, hi, waiting, running, finished.Keys, k);
    Alone(waiting, running, k, hi - lo);
    assert k !in After(trace).done;
    assert MayHappen(calls, tools, base, After(trace), e);
    Extend(calls, tools, base, trace, e);
  }

  lemma FinishOne(
    calls: seq<ToolCall>, tools: map<string, Tool>, base: nat, before: seq<Event>, trace: seq<Event>,
    lo: nat, hi: nat, waiting: set<nat>, running: set<nat>, finished: map<nat, Message>, k: nat, m: Message)
    requires IsBatch(calls, tools, lo, hi) && Settled(calls, tools, base, before, lo)
    requires MidBatch(calls, tools, base, before, trace, lo, hi, waiting, running, finished)
    requires k in running && Answers(m, calls[k], tools)
    ensures MidBatch(calls, tools, base, before, trace + [Finished(k, m)], lo, hi, waiting, running - {k}, finished[k := m])
    ensures |running - {k}| < |running|
  {
    SplitMoves(lo, hi, waiting, running, finished.Keys, k);
    PutLast(After(before).done, finished, k, m);
    Extend(calls, tools, base, trace, Finished(k, m));
  }

  lemma BatchStarts(calls: seq<ToolCall>, tools: map<string, Tool>, base: nat, before: seq<Event>, lo: nat, hi: nat, waiting: set<nat>)
    requires lo < hi && Settled(calls, tools, base, before, lo) && waiting == Range(lo, hi)
    ensures MidBatch(calls, tools, base, before, before, lo, hi, waiting, {}, map[])
  {
    assert After(before).done + map[] == After(before).done;
  }

  lemma BatchEnds(
    calls: seq<ToolCall>, tools: map<string, Tool>, base: nat, before: seq<Event>, trace: seq<Event>,
    lo: nat, hi: nat, finished: map<nat, Message>)
    requires lo < hi && Settled(calls, tools, base, before, lo)
    requires MidBatch(calls, tools, base, before, trace, lo, hi, {}, {}, finished)
    ensures Settled(calls, tools, base, trace, hi)
    ensures forall k :: lo <= k < hi ==> k in finished && finished[k] == After(trace).done[k]
    ensures forall k :: 0 <= k < lo ==> After(trace).done[k] == After(before).done[k]
  {
  }

  /** Runs one batch to its end, in any interleaving. */
  method RunBatch(
    calls: seq<ToolCall>, tools: map<string, Tool>, base: nat, lo: nat, hi: nat, replies: (nat, nat) -> Reply, ghost before: seq<Event>)
    returns (finished: map<nat, Message>, ghost trace: seq<Event>)
    requires IsBatch(calls, tools, lo, hi)
    requires Settled(calls, tools, base, before, lo)
    ensures MidBatch(calls, tools, base, before, trace, lo, hi, {}, {}, finished)
    ensures lo < hi <= |calls| && forall k :: lo <= k < hi ==> k in finished && Heard(finished[k], calls[k], tools, replies, k)
  {
    hide Disciplined, After, Answers, Answer, Heard;
    trace := before;
    var waiting, running := Range(lo, hi), {};
    finished := map[];
    var tick := 0;
    BatchStarts(calls, tools, base, before, lo, hi, waiting);
    while waiting != {} || running != {}
      invariant MidBatch(calls, tools, base, before, trace, lo, hi, waiting, running, finished)
      invariant forall k :: k in finished ==> k < |calls| && Heard(finished[k], calls[k], tools, replies, k)
      decreases 2 * |waiting| + |running|
    {
      if
      case waiting != {} =>
        var k :| k in waiting;
        StartOne(calls, tools, base, before, trace, lo, hi, waiting, running, finished, k);
        trace := trace + [Started(k, base + k + 1)];
        waiting, running := waiting - {k}, running + {k};
      case running != {} =>
        var k :| k in running;
        var message := Answer(calls[k], tools, replies(k, tick));
        AnswerIsHeard(calls[k], tools, replies, k, tick);
        FinishOne(calls, tools, base, before, trace, lo, hi, waiting, running, finished, k, message);
        trace := trace + [Finished(k, message)];
        running, finished := running - {k}, finished[k := message];
      tick := tick + 1;
    }
  }

  /** `asyncio.gather` over a batch: its results come back in the order of its calls, whatever order they finished in. */
  method Gather(
    calls: seq<ToolCall>, tools: map<string, Tool>, base: nat, lo: nat, hi: nat, replies: (nat, nat) -> Reply, ghost before: seq<Event>)
    returns (results: seq<Message>, ghost trace: seq<Event>)
    requires IsBatch(calls, tools, lo, hi)
    requires Settled(calls, tools, base, before, lo)
    ensures lo < hi <= |calls| && Settled(calls, tools, base, trace, hi)
    ensures |results| == hi - lo && forall i :: 0 <= i < |results| ==> results[i] == After(trace).done[lo + i]
    ensures forall i :: 0 <= i < |results| ==> Answers(results[i], calls[lo + i], tools)
    ensures forall i :: 0 <= i < |results| ==> Heard(results[i], calls[lo + i], tools, replies, lo + i)
    ensures forall k :: 0 <= k < lo ==> After(trace).done[k] == After(before).done[k]
  {
    hide Disciplined, After, Heard;
    var finished;
    finished, trace := RunBatch(calls, tools, base, lo, hi, replies, before);
    BatchEnds(calls, tools, base, before, trace, lo, hi, finished);
    DoneAreAnswers(calls, tools, base, trace);
    hide Answers;
    results := seq(hi - lo, i requires 0 <= i < hi - lo => finished[lo + i]);
  }

  lemma Alone(waiting: set<nat>, running: set<nat>, k: nat, size: nat)
    requires k in waiting && |waiting| + |running| <= size
    ensures |waiting| >= 1 && |running| < size
    ensures size == 1 ==> running == {}
  {
    assert {k} <= waiting && waiting == {k} + (waiting - {k});
  }

  lemma EmptyIsSettled(calls: seq<ToolCall>, tools: map<string, Tool>, base: nat)
    ensures Settled(calls, tools, base, [], 0)
  {
  }

  /** The messages collected so far are those the first `n` calls finished with. */
  ghost predicate Collected(messages: seq<Message>, done: map<nat, Message>, n: nat) {
    |messages| == n && forall k :: 0 <= k < n ==> k in done && messages[k] == done[k]
  }

  lemma CollectMore(messages: seq<Message>, results: seq<Message>, before: map<nat, Message>, after: map<nat, Message>, lo: nat)
    requires Collected(messages, before, lo)
    requires forall k :: 0 <= k < lo ==> k in after && k in before && after[k] == before[k]
    requires forall i :: 0 <= i < |results| ==> lo + i in after && results[i] == after[lo + i]
    ensures Collected(messages + results, after, lo + |results|)
  {
    forall k | 0 <= k < lo + |results| ensures k in after && (messages + results)[k] == after[k] {
      if k >= lo {
        var i := k - lo;
        assert (messages + results)[lo + i] == results[i];
      }
    }
  }

  /** The end of the batch that starts at `cursor`: up to four consecutive safe calls, or one call. */
  method BatchEnd(calls: seq<ToolCall>, tools: map<string, Tool>, cursor: nat) returns (end: nat)
    requires cursor < |calls|
    ensures IsBatch(calls, tools, cursor, end)
    ensures Safe(calls, tools, cursor) && end < |calls| && Safe(calls, tools, end) ==> end == cursor + MAX_PARALLEL_TOOL_CALLS
  {
    end := cursor;
    while end < |calls| && end - cursor < MAX_PARALLEL_TOOL_CALLS && Safe(calls, tools, end)
      invariant cursor <= end <= |calls| && end - cursor <= MAX_PARALLEL_TOOL_CALLS
      invariant forall k :: cursor <= k < end ==> Safe(calls, tools, k)
    {
      end := end + 1;
    }
    if end == cursor {
      end := cursor + 1;
    }
  }

  /** `_dispatch_step_calls`: consecutive safe calls overlap, every other call is a barrier. */
  method DispatchStepCalls(calls: seq<ToolCall>, tools: map<string, Tool>, base: nat, replies: (nat, nat) -> Reply)
    returns (messages: seq<Message>, index: nat, ghost trace: seq<Event>)
    ensures Settled(calls, tools, base, trace, |calls|) && Collected(messages, After(trace).done, |calls|)
    ensures |messages| == |calls| && forall k :: 0 <= k < |calls| ==> Answers(messages[k], calls[k], tools)
    ensures forall k :: 0 <= k < |calls| ==> Heard(messages[k], calls[k], tools, replies, k)
    ensures index == base + |calls|
  {
    hide Disciplined, After, Answers, IsBatch, Heard;
    messages, index, trace := [], base, [];
    EmptyIsSettled(calls, tools, base);
    var cursor := 0;
    while cursor < |calls|
      invariant cursor <= |calls| && index == base + cursor
      invariant Settled(calls, tools, base, trace, cursor)
      invariant Collected(messages, After(trace).done, cursor)
      invariant forall k :: 0 <= k < cursor ==> Heard(messages[k], calls[k], tools, replies, k)
    {
      var end := BatchEnd(calls, tools, cursor);
      var results;
      ghost var before := trace;
      results, trace := Gather(calls, tools, base, cursor, end, replies, before);
      CollectMore(messages, results, After(before).done, After(trace).done, cursor);
      assert forall k :: cursor <= k < cursor + |results| ==> (messages + results)[k] == results[k - cursor];
      messages := messages + results;
      index := index + |results|;
      cursor := cursor + |results|;
    }
    DoneAreAnswers(calls, tools, base, trace);
  }

  lemma {:induction false} DoneAreAnswers(calls: seq<ToolCall>, tools: map<string, Tool>, base: nat, trace: seq<Event>)
    requires Disciplined(calls, tools, base, trace)
    ensures forall k :: k in After(trace).done ==> k < |calls| && Answers(After(trace).done[k], calls[k], tools)
  {
    if trace != [] { DoneAreAnswers(calls, tools, base, trace[..|trace| - 1]); }
  }

  // What discipline means for any trace.

  /** At most four calls run, and an unsafe or unknown one runs alone. */
  ghost predicate Bounded(calls: seq<ToolCall>, tools: map<string, Tool>, running: set<nat>) {
    |running| <= MAX_PARALLEL_TOOL_CALLS && forall r :: r in running && !Safe(calls, tools, r) ==> running == {r}
  }

  lemma StepStaysBounded(calls: seq<ToolCall>, tools: map<string, Tool>, base: nat, f: Flight, e: Event)
    requires Bounded(calls, tools, f.running) && MayHappen(calls, tools, base, f, e)
    ensures Bounded(calls, tools, Advance(f, e).running)
  {
    match e
    case Started(k, _) =>
      assert |f.running + {k}| == |f.running| + 1;
    case Finished(k, _) =>
      assert |f.running - {k}| == |f.running| - 1;
      assert forall r :: r in f.running - {k} ==> r in f.running;
  }

  lemma NothingRuns(calls: seq<ToolCall>, tools: map<string, Tool>)
    ensures Bounded(calls, tools, {}) && After([]).running == {}
  {
  }

  /** The bound holds at every moment of a step. */
  lemma {:induction false} InFlight(calls: seq<ToolCall>, tools: map<string, Tool>, base: nat, trace: seq<Event>, p: nat)
    requires Disciplined(calls, tools, base, trace) && p <= |trace|
    ensures Bounded(calls, tools, After(trace[..p]).running)
    decreases |trace|
  {
    hide Bounded, MayHappen, Advance;
    if p == |trace| {
      assert trace[..p] == trace;
    }
    if trace == [] {
      NothingRuns(calls, tools);
    } else {
      var front := trace[..|trace| - 1];
      if p < |trace| {
        InFlight(calls, tools, base, front, p);
        assert front[..p] == trace[..p];
      } else {
        InFlight(calls, tools, base, front, |front|);
        assert front[..|front|] == front;
        StepStaysBounded(calls, tools, base, After(front), trace[|trace| - 1]);
      }
    }
  }

  function Starts(trace: seq<Event>, k: nat): nat {
    if trace == [] then 0
    else Starts(trace[..|trace| - 1], k) + if trace[|trace| - 1].Started? && trace[|trace| - 1].k == k then 1 else 0
  }

  /** No call is dispatched twice, and what runs or is done was dispatched. */
  lemma {:induction false} DispatchedOnce(calls: seq<ToolCall>, tools: map<string, Tool>, base: nat, trace: seq<Event>, k: nat)
    requires Disciplined(calls, tools, base, trace)
    ensures Starts(trace, k) == if k in After(trace).running || k in After(trace).done then 1 else 0
  {
    if trace != [] { DispatchedOnce(calls, tools, base, trace[..|trace| - 1], k); }
  }

  lemma {:induction false} DoneMeansFinished(calls: seq<ToolCall>, tools: map<string, Tool>, base: nat, trace: seq<Event>, k: nat) returns (q: nat)
    requires Disciplined(calls, tools, base, trace) && k in After(trace).done
    ensures q < |trace| && trace[q].Finished? && trace[q].k == k
  {
    var last := |trace| - 1;
    if trace[last].Finished? && trace[last].k == k {
      q := last;
    } else {
      q := DoneMeansFinished(calls, tools, base, trace[..last], k);
    }
  }

  lemma {:induction false} EventWasAllowed(calls: seq<ToolCall>, tools: map<string, Tool>, base: nat, trace: seq<Event>, p: nat)
    requires Disciplined(calls, tools, base, trace) && p < |trace|
    ensures Disciplined(calls, tools, base, trace[..p]) && MayHappen(calls, tools, base, After(trace[..p]), trace[p])
  {
    var front := trace[..|trace| - 1];
    if p < |front| {
      EventWasAllowed(calls, tools, base, front, p);
      assert front[..p] == trace[..p];
    }
  }

  /** Barriers keep model order: of two calls that are not both safe, the earlier finished before the later started. */
  lemma Barrier(calls: seq<ToolCall>, tools: map<string, Tool>, base: nat, trace: seq<Event>, p: nat, j: nat) returns (q: nat)
    requires Disciplined(calls, tools, base, trace) && p < |trace| && trace[p].Started? && j < trace[p].k
    requires !Safe(calls, tools, j) || !Safe(calls, tools, trace[p].k)
    ensures q < p && trace[q].Finished? && trace[q].k == j
  {
    EventWasAllowed(calls, tools, base, trace, p);
    q := DoneMeansFinished(calls, tools, base, trace[..p], j);
  }
}

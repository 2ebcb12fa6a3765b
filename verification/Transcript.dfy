/** The messages a loop shows its model: every call answered in order, and old tool results shortened over a budget. */
module Transcript {
  import opened Text
  import opened EffectTruth
  import opened Scheduling

  const TRANSCRIPT_CHAR_BUDGET: nat := 48000
  const COMPACT_KEEP_TAIL: nat := 4

  datatype Role = System | User | Assistant | ToolRole

  datatype Utterance = Utterance(role: Role, content: string, name: string, callId: string, callIds: seq<string>)

  function Chars(transcript: seq<Utterance>): nat {
    if transcript == [] then 0 else Chars(transcript[..|transcript| - 1]) + |transcript[|transcript| - 1].content|
  }

  function ToolIndexes(transcript: seq<Utterance>): seq<nat> {
    if transcript == [] then []
    else
      ToolIndexes(transcript[..|transcript| - 1])
      + if transcript[|transcript| - 1].role == ToolRole then [|transcript| - 1] else []
  }

  function Shortened(e: Utterance): Utterance {
    e.(content := "[已压缩] " + e.name + ": " + Cap(e.content, 200) + "…")
  }

  /** The tool results that compaction shortens: all but the last four. */
  function Old(transcript: seq<Utterance>): seq<nat> {
    var indexes := ToolIndexes(transcript);
    if |indexes| <= COMPACT_KEEP_TAIL then [] else indexes[..|indexes| - COMPACT_KEEP_TAIL]
  }

  predicate Rising(indexes: seq<nat>) { forall p, q :: 0 <= p < q < |indexes| ==> indexes[p] < indexes[q] }

  ghost predicate IndexesTools(transcript: seq<Utterance>, indexes: seq<nat>) {
    Rising(indexes) && forall i :: i in indexes <==> 0 <= i < |transcript| && transcript[i].role == ToolRole
  }

  lemma IndexOneMore(transcript: seq<Utterance>, indexes: seq<nat>, e: Utterance)
    requires IndexesTools(transcript, indexes)
    ensures IndexesTools(transcript + [e], indexes + if e.role == ToolRole then [|transcript|] else [])
  {
    var all, more := transcript + [e], indexes + if e.role == ToolRole then [|transcript|] else [];
    assert forall p :: 0 <= p < |indexes| ==> indexes[p] in indexes;
    forall i ensures i in more <==> 0 <= i < |all| && all[i].role == ToolRole {
      assert i in indexes <==> 0 <= i < |transcript| && transcript[i].role == ToolRole;
    }
  }

  lemma {:induction false} ToolIndexesMeaning(transcript: seq<Utterance>)
    ensures IndexesTools(transcript, ToolIndexes(transcript))
  {
    if transcript != [] {
      var front, last := transcript[..|transcript| - 1], transcript[|transcript| - 1];
      ToolIndexesMeaning(front);
      IndexOneMore(front, ToolIndexes(front), last);
      assert transcript == front + [last];
      hide IndexesTools;
    }
  }

  /** At least `n` tool results come after position `i`. */
  ghost predicate Follow(transcript: seq<Utterance>, i: nat, n: nat)
    decreases n
  {
    n == 0 || exists j: nat :: i < j < |transcript| && transcript[j].role == ToolRole && Follow(transcript, j, n - 1)
  }

  /** After the tool result at a place of the index there are as many more as the index has. */
  lemma {:induction false} FollowMeaning(transcript: seq<Utterance>, indexes: seq<nat>, p: nat, n: nat)
    requires IndexesTools(transcript, indexes) && p < |indexes|
    ensures Follow(transcript, indexes[p], n) <==> p + n < |indexes|
    decreases n
  {
    if n > 0 {
      if Follow(transcript, indexes[p], n) {
        var j: nat :| indexes[p] < j < |transcript| && transcript[j].role == ToolRole && Follow(transcript, j, n - 1);
        var q :| 0 <= q < |indexes| && indexes[q] == j;
        FollowMeaning(transcript, indexes, q, n - 1);
      }
      if p + n < |indexes| {
        FollowMeaning(transcript, indexes, p + 1, n - 1);
        assert indexes[p] < indexes[p + 1] && indexes[p + 1] in indexes;
      }
    }
  }

  lemma PrefixHolds(indexes: seq<nat>, p: nat, n: nat)
    requires Rising(indexes) && p < |indexes| && n <= |indexes|
    ensures indexes[p] in indexes[..n] <==> p < n
    ensures Rising(indexes[..n])
  {
    if p < n { assert indexes[..n][p] == indexes[p]; }
  }

  /** The old tool results are those that four more follow. */
  lemma OldAt(transcript: seq<Utterance>, i: nat)
    ensures i in Old(transcript) <==> i < |transcript| && transcript[i].role == ToolRole && Follow(transcript, i, 4)
  {
    var indexes := ToolIndexes(transcript);
    ToolIndexesMeaning(transcript);
    hide ToolIndexes, Follow;
    if i in indexes {
      var p :| 0 <= p < |indexes| && indexes[p] == i;
      FollowMeaning(transcript, indexes, p, 4);
      hide Rising, IndexesTools;
      if |indexes| > 4 { PrefixHolds(indexes, p, |indexes| - 4); }
    }
  }

  lemma OldMeaning(transcript: seq<Utterance>)
    ensures forall i :: i in Old(transcript) <==> 0 <= i < |transcript| && transcript[i].role == ToolRole && Follow(transcript, i, 4)
    ensures Rising(Old(transcript))
  {
    ToolIndexesMeaning(transcript);
    var indexes := ToolIndexes(transcript);
    hide ToolIndexes, Follow;
    if |indexes| > 4 { PrefixHolds(indexes, 0, |indexes| - 4); }
    forall i: nat
      ensures i in Old(transcript) <==> i < |transcript| && transcript[i].role == ToolRole && Follow(transcript, i, 4)
    {
      OldAt(transcript, i);
    }
  }

  lemma {:induction false} CharsAdd(first: seq<Utterance>, second: seq<Utterance>)
    ensures Chars(first + second) == Chars(first) + Chars(second)
    ensures |second| == 1 ==> Chars(second) == |second[0].content|
  {
    if second == [] {
      assert first + second == first;
    } else {
      CharsAdd(first, second[..|second| - 1]);
      assert (first + second)[..|first + second| - 1] == first + second[..|second| - 1];
    }
  }

  /** The shortened form of a tool result: its name and the first 200 characters of its content. */
  predicate IsShort(e: Utterance, full: Utterance) {
    && e == full.(content := e.content)
    && e.content == "[已压缩] " + full.name + ": " + (if |full.content| <= 200 then full.content else full.content[..200]) + "…"
  }

  /** Over 48000 characters exactly the tool results that four more follow are shortened. */
  ghost predicate Compacts(compacted: seq<Utterance>, transcript: seq<Utterance>) {
    && |compacted| == |transcript|
    && forall i :: 0 <= i < |transcript| ==>
         if Chars(transcript) > 48000 && transcript[i].role == ToolRole && Follow(transcript, i, 4)
         then IsShort(compacted[i], transcript[i]) else compacted[i] == transcript[i]
  }

  /**
   * `_compact_transcript`: over 48000 characters, shortens exactly the tool results that four more follow; everything else
   * stays as it is.
   */
  method CompactTranscript(transcript: seq<Utterance>) returns (compacted: seq<Utterance>)
    ensures |compacted| == |transcript| && Compacts(compacted, transcript)
  {
    hide Follow, Old, Chars;
    compacted := transcript;
    OldMeaning(transcript);
    if Chars(transcript) <= TRANSCRIPT_CHAR_BUDGET {
      return;
    }
    var indexes := Old(transcript);
    for p := 0 to |indexes|
      invariant |compacted| == |transcript|
      invariant forall i :: 0 <= i < |transcript| ==>
                  compacted[i] == if i in indexes[..p] then Shortened(transcript[i]) else transcript[i]
    {
      var i := indexes[p];
      assert i in indexes;
      assert indexes[..p + 1] == indexes[..p] + [i];
      assert i !in indexes[..p];
      compacted := compacted[i := Shortened(compacted[i])];
    }
    assert indexes[..|indexes|] == indexes;
    assert forall i :: 0 <= i < |transcript| ==> IsShort(Shortened(transcript[i]), transcript[i]);
  }

  // One turn of the model.

  datatype Turn = Turn(calls: seq<ToolCall>, content: string)

  function MessageEntries(messages: seq<Message>): seq<Utterance> {
    seq(|messages|, i requires 0 <= i < |messages| => Utterance(ToolRole, messages[i].content, messages[i].name, messages[i].callId, []))
  }

  function CallIds(calls: seq<ToolCall>): seq<string> {
    seq(|calls|, i requires 0 <= i < |calls| => calls[i].id)
  }

  /** Every tool call an assistant message names is answered right after it, in order. */
  ghost predicate Paired(transcript: seq<Utterance>) {
    forall i :: 0 <= i < |transcript| && transcript[i].role == Assistant ==> AnsweredAt(transcript, i)
  }

  ghost predicate AnsweredAt(transcript: seq<Utterance>, i: nat)
    requires i < |transcript|
  {
    var ids := transcript[i].callIds;
    i + |ids| < |transcript| && forall j :: 0 <= j < |ids| ==> IsAnswer(transcript, i + 1 + j, ids[j])
  }

  predicate IsAnswer(transcript: seq<Utterance>, at: nat, id: string) {
    at < |transcript| && transcript[at].role == ToolRole && transcript[at].callId == id
  }

  lemma PairedAppend(transcript: seq<Utterance>, more: seq<Utterance>)
    requires Paired(transcript) && Paired(more)
    ensures Paired(transcript + more)
  {
    var all := transcript + more;
    forall i | 0 <= i < |all| && all[i].role == Assistant ensures AnsweredAt(all, i) {
      var ids := all[i].callIds;
      if i < |transcript| {
        assert AnsweredAt(transcript, i);
        forall j | 0 <= j < |ids| ensures IsAnswer(all, i + 1 + j, ids[j]) {
          assert IsAnswer(transcript, i + 1 + j, transcript[i].callIds[j]);
        }
      } else {
        var k := i - |transcript|;
        assert more[k] == all[i] && AnsweredAt(more, k);
        forall j | 0 <= j < |ids| ensures IsAnswer(all, i + 1 + j, ids[j]) {
          assert IsAnswer(more, k + 1 + j, more[k].callIds[j]);
          assert all[i + 1 + j] == more[k + 1 + j];
        }
      }
    }
  }

  lemma NoCallsIsPaired(transcript: seq<Utterance>)
    requires forall i :: 0 <= i < |transcript| ==> transcript[i].callIds == []
    ensures Paired(transcript)
  {
  }

  /** An assistant message followed by the answers to its calls. */
  lemma StepIsPaired(content: string, calls: seq<ToolCall>, tools: map<string, Tool>, messages: seq<Message>)
    requires |messages| == |calls| && forall k :: 0 <= k < |calls| ==> Answers(messages[k], calls[k], tools)
    ensures Paired([Utterance(Assistant, content, "", "", CallIds(calls))] + MessageEntries(messages))
  {
    hide Answers;
    var all := [Utterance(Assistant, content, "", "", CallIds(calls))] + MessageEntries(messages);
    forall j | 0 <= j < |calls| ensures IsAnswer(all, 0 + 1 + j, CallIds(calls)[j]) {
      AnswerHasCallId(messages[j], calls[j], tools);
    }
    assert AnsweredAt(all, 0);
  }

  lemma AnswerHasCallId(m: Message, call: ToolCall, tools: map<string, Tool>)
    requires Answers(m, call, tools)
    ensures m.callId == call.id
  {
  }

  lemma StepKeepsPairing(before: seq<Utterance>, turn: Turn, tools: map<string, Tool>, messages: seq<Message>)
    requires |messages| == |turn.calls| && forall k :: 0 <= k < |turn.calls| ==> Answers(messages[k], turn.calls[k], tools)
    ensures Paired(before) ==>
              Paired(before + [Utterance(Assistant, turn.content, "", "", CallIds(turn.calls))] + MessageEntries(messages))
  {
    if Paired(before) {
      var step := [Utterance(Assistant, turn.content, "", "", CallIds(turn.calls))];
      StepIsPaired(turn.content, turn.calls, tools, messages);
      PairedAppend(before, step + MessageEntries(messages));
      assert before + step + MessageEntries(messages) == before + (step + MessageEntries(messages));
    }
  }

  // What stays of what was said.

  /** What `n` shortenings of a tool result leave. */
  ghost predicate ShortTimes(e: Utterance, full: Utterance, n: nat)
    decreases n
  {
    if n == 0 then e == full else exists middle :: ShortTimes(middle, full, n - 1) && IsShort(e, middle)
  }

  /** Only a tool result ever changes, and only by being shortened, once or more often. */
  ghost predicate Kept(e: Utterance, full: Utterance) {
    e == full || (full.role == ToolRole && exists n: nat :: ShortTimes(e, full, n))
  }

  /** A transcript that goes on from another one: nothing is lost or moved. */
  ghost predicate Continues(after: seq<Utterance>, before: seq<Utterance>) {
    |before| <= |after| && forall i :: 0 <= i < |before| ==> Kept(after[i], before[i])
  }

  lemma {:induction false} ShortTimesSame(e: Utterance, full: Utterance, n: nat)
    requires ShortTimes(e, full, n)
    ensures e == full.(content := e.content)
    decreases n
  {
    if n > 0 {
      var middle :| ShortTimes(middle, full, n - 1) && IsShort(e, middle);
      ShortTimesSame(middle, full, n - 1);
    }
  }

  lemma KeptSame(e: Utterance, full: Utterance)
    requires Kept(e, full)
    ensures e == full.(content := e.content)
  {
    if e != full {
      var n: nat :| ShortTimes(e, full, n);
      ShortTimesSame(e, full, n);
    }
  }

  lemma KeptOnce(e: Utterance, full: Utterance)
    requires full.role == ToolRole && IsShort(e, full)
    ensures Kept(e, full)
  {
    assert ShortTimes(full, full, 0);
    assert ShortTimes(e, full, 1);
  }

  lemma {:induction false} ShortTimesAdd(e: Utterance, middle: Utterance, full: Utterance, m: nat, n: nat)
    requires ShortTimes(e, middle, m) && ShortTimes(middle, full, n)
    ensures ShortTimes(e, full, m + n)
    decreases m
  {
    if m > 0 {
      var last :| ShortTimes(last, middle, m - 1) && IsShort(e, last);
      ShortTimesAdd(last, middle, full, m - 1, n);
    }
  }

  lemma KeptAgain(e: Utterance, middle: Utterance, full: Utterance)
    requires Kept(e, middle) && Kept(middle, full)
    ensures Kept(e, full)
  {
    KeptSame(middle, full);
    if e != middle && middle != full {
      var m: nat :| ShortTimes(e, middle, m);
      var n: nat :| ShortTimes(middle, full, n);
      ShortTimesAdd(e, middle, full, m, n);
    }
  }

  lemma ContinuesOn(last: seq<Utterance>, middle: seq<Utterance>, first: seq<Utterance>)
    requires Continues(last, middle) && Continues(middle, first)
    ensures Continues(last, first)
  {
    hide Kept;
    forall i | 0 <= i < |first| ensures Kept(last[i], first[i]) { KeptAgain(last[i], middle[i], first[i]); }
  }

  lemma ContinuesWith(before: seq<Utterance>, more: seq<Utterance>)
    ensures Continues(before + more, before)
  {
  }

  /** The message that answers a call, as it stays: the refusal's words, or what the tool replied at some moment. */
  ghost predicate ReplyTold(e: Utterance, call: ToolCall, tools: map<string, Tool>, replies: (nat, nat) -> Reply, k: nat) {
    exists content ::
      && Kept(e, Utterance(ToolRole, content, call.name, call.id, []))
      && match Refusal(call, tools)
         case Some(refusal) => content == refusal.content
         case None => exists moment: nat :: Carries(content, replies(k, moment))
  }

  /** A turn with calls is told as the model's message, naming each call, and then the answers in order. */
  ghost predicate StepTold(transcript: seq<Utterance>, at: nat, turn: Turn, tools: map<string, Tool>, replies: (nat, nat) -> Reply) {
    && at + 1 + |turn.calls| <= |transcript|
    && transcript[at].role == Assistant && transcript[at].content == turn.content
    && |transcript[at].callIds| == |turn.calls| && (forall k :: 0 <= k < |turn.calls| ==> transcript[at].callIds[k] == turn.calls[k].id)
    && forall k :: 0 <= k < |turn.calls| ==> ReplyTold(transcript[at + 1 + k], turn.calls[k], tools, replies, k)
  }

  lemma ReplyStaysTold(after: Utterance, before: Utterance, call: ToolCall, tools: map<string, Tool>, replies: (nat, nat) -> Reply, k: nat)
    requires Kept(after, before) && ReplyTold(before, call, tools, replies, k)
    ensures ReplyTold(after, call, tools, replies, k)
  {
    var content :|
      && Kept(before, Utterance(ToolRole, content, call.name, call.id, []))
      && match Refusal(call, tools)
         case Some(refusal) => content == refusal.content
         case None => exists moment: nat :: Carries(content, replies(k, moment));
    hide Kept, Refusal, Carries;
    KeptAgain(after, before, Utterance(ToolRole, content, call.name, call.id, []));
  }

  lemma StepStaysTold(
    after: seq<Utterance>, before: seq<Utterance>, at: nat, turn: Turn, tools: map<string, Tool>, replies: (nat, nat) -> Reply)
    requires Continues(after, before) && StepTold(before, at, turn, tools, replies)
    ensures StepTold(after, at, turn, tools, replies)
  {
    assert Kept(after[at], before[at]);
    forall k | 0 <= k < |turn.calls| ensures ReplyTold(after[at + 1 + k], turn.calls[k], tools, replies, k) {
      assert ReplyTold(before[at + 1 + k], turn.calls[k], tools, replies, k);
      ReplyStaysTold(after[at + 1 + k], before[at + 1 + k], turn.calls[k], tools, replies, k);
    }
  }

  lemma AnswerIsTold(m: Message, call: ToolCall, tools: map<string, Tool>, replies: (nat, nat) -> Reply, k: nat)
    requires Answers(m, call, tools) && Heard(m, call, tools, replies, k)
    ensures ReplyTold(Utterance(ToolRole, m.content, m.name, m.callId, []), call, tools, replies, k)
  {
    var e := Utterance(ToolRole, m.content, call.name, call.id, []);
    assert Kept(e, e);
    hide Refusal, Carries, Kept;
  }

  lemma StepIsTold(
    before: seq<Utterance>, turn: Turn, tools: map<string, Tool>, replies: (nat, nat) -> Reply, messages: seq<Message>)
    requires |messages| == |turn.calls|
    requires forall k :: 0 <= k < |messages| ==> Answers(messages[k], turn.calls[k], tools) && Heard(messages[k], turn.calls[k], tools, replies, k)
    ensures StepTold(
              before + [Utterance(Assistant, turn.content, "", "", CallIds(turn.calls))] + MessageEntries(messages),
              |before|, turn, tools, replies)
  {
    hide Answers, Heard, ReplyTold;
    var all := before + [Utterance(Assistant, turn.content, "", "", CallIds(turn.calls))] + MessageEntries(messages);
    forall k | 0 <= k < |messages| ensures ReplyTold(all[|before| + 1 + k], turn.calls[k], tools, replies, k) {
      AnswerIsTold(messages[k], turn.calls[k], tools, replies, k);
      assert all[|before| + 1 + k] == MessageEntries(messages)[k];
    }
  }

  lemma CompactedContinues(transcript: seq<Utterance>, compacted: seq<Utterance>)
    requires |compacted| == |transcript|
    requires forall i :: 0 <= i < |transcript| ==>
               compacted[i] == transcript[i] || (transcript[i].role == ToolRole && IsShort(compacted[i], transcript[i]))
    ensures Continues(compacted, transcript)
  {
    forall i | 0 <= i < |transcript| ensures Kept(compacted[i], transcript[i]) {
      if compacted[i] != transcript[i] { KeptOnce(compacted[i], transcript[i]); }
    }
  }

  /** Compaction touches neither roles nor call ids. */
  lemma ContinuingStaysPaired(after: seq<Utterance>, before: seq<Utterance>)
    requires Continues(after, before) && |after| == |before| && Paired(before)
    ensures Paired(after)
  {
    forall i | 0 <= i < |after| ensures after[i] == before[i].(content := after[i].content) { KeptSame(after[i], before[i]); }
    hide Kept;
    forall i | 0 <= i < |after| && after[i].role == Assistant ensures AnsweredAt(after, i) {
      assert AnsweredAt(before, i);
      var ids := after[i].callIds;
      forall j | 0 <= j < |ids| ensures IsAnswer(after, i + 1 + j, ids[j]) {
        assert IsAnswer(before, i + 1 + j, before[i].callIds[j]);
      }
    }
  }

  /** Where `n` tool results follow there is room for them. */
  lemma {:induction false} FollowNeedsRoom(transcript: seq<Utterance>, i: nat, n: nat)
    requires Follow(transcript, i, n)
    ensures n == 0 || i + n < |transcript|
    decreases n
  {
    if n > 0 {
      var j: nat :| i < j < |transcript| && transcript[j].role == ToolRole && Follow(transcript, j, n - 1);
      FollowNeedsRoom(transcript, j, n - 1);
    }
  }

  lemma NoRoomForFour(transcript: seq<Utterance>, i: nat)
    requires |transcript| <= i + 4
    ensures !Follow(transcript, i, 4)
  {
    hide Follow;
    if Follow(transcript, i, 4) { FollowNeedsRoom(transcript, i, 4); }
  }

  /** What compaction makes of a step: all of it stays, and the last four answers stay word for word. */
  lemma StepCompacted(
    transcript: seq<Utterance>, turn: Turn, tools: map<string, Tool>, replies: (nat, nat) -> Reply, messages: seq<Message>,
    full: seq<Utterance>, extended: seq<Utterance>)
    requires full == transcript + [Utterance(Assistant, turn.content, "", "", CallIds(turn.calls))] + MessageEntries(messages)
    requires |messages| == |turn.calls|
    requires forall k :: 0 <= k < |messages| ==> Answers(messages[k], turn.calls[k], tools) && Heard(messages[k], turn.calls[k], tools, replies, k)
    requires Compacts(extended, full)
    ensures Continues(extended, transcript) && StepTold(extended, |transcript|, turn, tools, replies)
    ensures forall k :: 0 <= k < |messages| && |messages| <= k + 4 ==> extended[|transcript| + 1 + k].content == messages[k].content
    ensures Paired(transcript) ==> Paired(extended)
  {
    hide Paired, Answers, Heard, Follow, StepTold, Kept, Continues, ReplyTold, IsShort;
    forall k | 0 <= k < |messages| && |messages| <= k + 4 ensures extended[|transcript| + 1 + k].content == messages[k].content {
      var i: nat := |transcript| + 1 + k;
      assert full[i] == MessageEntries(messages)[k];
      NoRoomForFour(full, i);
    }
    StepIsTold(transcript, turn, tools, replies, messages);
    StepKeepsPairing(transcript, turn, tools, messages);
    CompactedContinues(full, extended);
    StepStaysTold(extended, full, |transcript|, turn, tools, replies);
    FullContinues(transcript, turn, messages, extended);
    if Paired(transcript) { ContinuingStaysPaired(extended, full); }
  }

  /**
   * The calls of one turn: the assistant's message, an answer to each call, and compaction. Whatever came before stays
   * but for shortened tool results, and the answers to the last four calls are held word for word.
   */
  method AnswerCalls(transcript: seq<Utterance>, turn: Turn, tools: map<string, Tool>, callIndex: nat, replies: (nat, nat) -> Reply)
    returns (extended: seq<Utterance>, index: nat, ghost messages: seq<Message>)
    ensures |extended| == |transcript| + 1 + |turn.calls| && Continues(extended, transcript)
    ensures Compacts(
              extended, transcript + [Utterance(Assistant, turn.content, "", "", CallIds(turn.calls))] + MessageEntries(messages))
    ensures StepTold(extended, |transcript|, turn, tools, replies)
    ensures |messages| == |turn.calls|
    ensures forall k :: 0 <= k < |messages| ==> Answers(messages[k], turn.calls[k], tools) && Heard(messages[k], turn.calls[k], tools, replies, k)
    ensures forall k :: 0 <= k < |messages| && |messages| <= k + 4 ==> extended[|transcript| + 1 + k].content == messages[k].content
    ensures Paired(transcript) ==> Paired(extended)
    ensures index == callIndex + |turn.calls|
  {
    hide *;
    extended := transcript + [Utterance(Assistant, turn.content, "", "", CallIds(turn.calls))];
    var answers;
    ghost var trace;
    answers, index, trace := DispatchStepCalls(turn.calls, tools, callIndex, replies);
    messages := answers;
    EntriesSize(answers);
    extended := extended + MessageEntries(answers);
    ghost var full := extended;
    extended := CompactTranscript(extended);
    StepCompacted(transcript, turn, tools, replies, messages, full, extended);
  }

  lemma EntriesSize(messages: seq<Message>)
    ensures |MessageEntries(messages)| == |messages|
  {
  }

  lemma FullContinues(transcript: seq<Utterance>, turn: Turn, messages: seq<Message>, extended: seq<Utterance>)
    requires Continues(extended, transcript + [Utterance(Assistant, turn.content, "", "", CallIds(turn.calls))] + MessageEntries(messages))
    ensures Continues(extended, transcript)
  {
    var more := [Utterance(Assistant, turn.content, "", "", CallIds(turn.calls))];
    assert transcript + more + MessageEntries(messages) == transcript + (more + MessageEntries(messages));
    hide Continues;
    ContinuesWith(transcript, more + MessageEntries(messages));
    ContinuesOn(extended, transcript + (more + MessageEntries(messages)), transcript);
  }
}

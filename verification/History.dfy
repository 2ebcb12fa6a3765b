/** Which of the oldest conversation pairs a summary must cover, and how history becomes messages. */
module History {
  import opened Text

  const SUMMARY_CHAR_CAP: nat := 4000
  const SUMMARY_PREFIX := "[早前对话摘要] "
  const SUMMARY_REPLY := "（摘要记录了更早的对话要点）"

  datatype Pair = Pair(runId: string, user: string, assistant: string)

  datatype Speaker = User | Assistant

  datatype Message = Message(role: Speaker, content: string)

  function PairChars(p: Pair): nat { |p.user| + |p.assistant| }

  function TotalChars(pairs: seq<Pair>): nat {
    if pairs == [] then 0 else PairChars(pairs[0]) + TotalChars(pairs[1..])
  }

  function SummaryCost(summary: string): nat { if |summary| < SUMMARY_CHAR_CAP then |summary| else SUMMARY_CHAR_CAP }

  predicate Fits(pairs: seq<Pair>, summary: string, budget: int) { SummaryCost(summary) + TotalChars(pairs) <= budget }

  /** The kept pairs are the longest tail that fits, or the newest pair alone. */
  predicate IsSplit(compact: seq<Pair>, kept: seq<Pair>, pairs: seq<Pair>, summary: string, budget: int) {
    && compact + kept == pairs
    && (pairs != [] ==> kept != [])
    && (Fits(kept, summary, budget) || |kept| <= 1)
    && (forall k :: 0 <= k < |compact| ==> !Fits(pairs[k..], summary, budget))
  }

  lemma MovingKeepsAll(compact: seq<Pair>, kept: seq<Pair>)
    requires kept != []
    ensures compact + [kept[0]] + kept[1..] == compact + kept
  {
    assert [kept[0]] + kept[1..] == kept;
  }

  /** `split_pairs_for_budget`: moves the oldest kept pair over while there is more than one and they do not fit. */
  method SplitPairsForBudget(pairs: seq<Pair>, summary: string, budget: int) returns (compact: seq<Pair>, kept: seq<Pair>)
    ensures IsSplit(compact, kept, pairs, summary, budget)
  {
    hide TotalChars;
    compact, kept := [], pairs;
    while |kept| > 1 && SummaryCost(summary) + TotalChars(kept) > budget
      invariant compact + kept == pairs
      invariant pairs != [] ==> kept != []
      invariant forall k :: 0 <= k < |compact| ==> !Fits(pairs[k..], summary, budget)
      decreases |kept|
    {
      assert pairs[|compact|..] == kept;
      MovingKeepsAll(compact, kept);
      compact, kept := compact + [kept[0]], kept[1..];
    }
  }

  lemma {:induction false} LongerTailCostsMore(pairs: seq<Pair>, j: nat, k: nat)
    requires j <= k <= |pairs|
    ensures TotalChars(pairs[k..]) <= TotalChars(pairs[j..])
    decreases k - j
  {
    if j < k {
      assert pairs[j..][1..] == pairs[j + 1..];
      LongerTailCostsMore(pairs, j + 1, k);
    }
  }

  /** There is only one such split, so these properties determine the result. */
  lemma SplitIsUnique(c1: seq<Pair>, k1: seq<Pair>, c2: seq<Pair>, k2: seq<Pair>, pairs: seq<Pair>, summary: string, budget: int)
    requires IsSplit(c1, k1, pairs, summary, budget) && IsSplit(c2, k2, pairs, summary, budget)
    ensures c1 == c2 && k1 == k2
  {
    assert c1 == pairs[..|c1|] && c2 == pairs[..|c2|] && k1 == pairs[|c1|..] && k2 == pairs[|c2|..];
  }

  /** The kept tail fits the budget exactly when the newest pair alone does; an oversized newest pair is kept all the same. */
  lemma KeptFitsExactly(compact: seq<Pair>, kept: seq<Pair>, pairs: seq<Pair>, summary: string, budget: int)
    requires IsSplit(compact, kept, pairs, summary, budget)
    ensures Fits(kept, summary, budget) <==> Fits(if pairs == [] then [] else [pairs[|pairs| - 1]], summary, budget)
  {
    if pairs != [] {
      var last := |pairs| - 1;
      assert pairs[last..] == [pairs[last]];
      assert kept == pairs[|compact|..];
      LongerTailCostsMore(pairs, |compact|, last);
    }
  }

  lemma OversizedPairOverflows(p: Pair, summary: string, budget: int)
    requires PairChars(p) > budget
    ensures IsSplit([], [p], [p], summary, budget) && !Fits([p], summary, budget)
  {
    assert [] + [p] == [p];
    assert TotalChars([p]) == PairChars(p) + TotalChars([p][1..]);
  }

  /** A history that costs exactly the budget stays whole, and one character more moves its oldest pair over. */
  lemma BudgetIsExact(pairs: seq<Pair>, compact: seq<Pair>, kept: seq<Pair>, summary: string, budget: int)
    requires IsSplit(compact, kept, pairs, summary, budget) && |pairs| > 1
    ensures compact == [] <==> SummaryCost(summary) + TotalChars(pairs) <= budget
  {
    if compact == [] {
      assert kept == pairs;
    } else {
      assert pairs[0..] == pairs;
    }
  }

  // Messages.

  function PairMessages(pairs: seq<Pair>): seq<Message> {
    if pairs == [] then []
    else PairMessages(pairs[..|pairs| - 1]) + [Message(User, pairs[|pairs| - 1].user), Message(Assistant, pairs[|pairs| - 1].assistant)]
  }

  function SummaryMessages(summary: string): seq<Message> {
    if Strip(summary) == "" then []
    else
      [Message(User, SUMMARY_PREFIX + if |summary| <= SUMMARY_CHAR_CAP then summary else summary[..SUMMARY_CHAR_CAP]),
       Message(Assistant, SUMMARY_REPLY)]
  }

  /**
   * A summary that is not blank is shown as two messages, with as many of its characters as the budget counts for it: all
   * of them, or the first 4000.
   */
  lemma SummaryShown(summary: string)
    ensures Strip(summary) == "" ==> SummaryMessages(summary) == []
    ensures Strip(summary) != "" ==>
              exists shown ::
                && shown <= summary && |shown| == SummaryCost(summary) <= 4000 && (shown == summary || |shown| == 4000)
                && SummaryMessages(summary) == [Message(User, "[早前对话摘要] " + shown), Message(Assistant, "（摘要记录了更早的对话要点）")]
  {
    hide Strip;
    var shown := if |summary| <= 4000 then summary else summary[..4000];
    assert shown <= summary && |shown| == SummaryCost(summary);
  }

  /** Speakers take turns, the user first. */
  predicate TakesTurns(messages: seq<Message>) {
    |messages| % 2 == 0 && forall i :: 0 <= i < |messages| ==> messages[i].role == if i % 2 == 0 then User else Assistant
  }

  lemma TurnsAppend(a: seq<Message>, b: seq<Message>)
    requires TakesTurns(a) && TakesTurns(b)
    ensures TakesTurns(a + b)
  {
    forall i | 0 <= i < |a + b| ensures (a + b)[i].role == if i % 2 == 0 then User else Assistant {
      if i >= |a| { assert (a + b)[i] == b[i - |a|]; }
    }
  }

  lemma {:induction false} PairMessagesTakeTurns(pairs: seq<Pair>)
    ensures TakesTurns(PairMessages(pairs)) && |PairMessages(pairs)| == 2 * |pairs|
  {
    if pairs != [] {
      var front, p := pairs[..|pairs| - 1], pairs[|pairs| - 1];
      PairMessagesTakeTurns(front);
      TurnsAppend(PairMessages(front), [Message(User, p.user), Message(Assistant, p.assistant)]);
      hide TakesTurns;
    }
  }

  /** Messages 2i and 2i+1 are pair i's, word for word. */
  lemma {:induction false} PairMessageAt(pairs: seq<Pair>, i: nat)
    requires i < |pairs|
    ensures |PairMessages(pairs)| == 2 * |pairs|
    ensures PairMessages(pairs)[2 * i] == Message(User, pairs[i].user) && PairMessages(pairs)[2 * i + 1] == Message(Assistant, pairs[i].assistant)
  {
    PairMessagesTakeTurns(pairs);
    PairMessagesTakeTurns(pairs[..|pairs| - 1]);
    hide TakesTurns;
    if i < |pairs| - 1 { PairMessageAt(pairs[..|pairs| - 1], i); }
  }

  lemma PairMessagesStep(pairs: seq<Pair>, i: nat)
    requires i < |pairs|
    ensures PairMessages(pairs[..i + 1]) ==
            PairMessages(pairs[..i]) + [Message(User, pairs[i].user), Message(Assistant, pairs[i].assistant)]
  {
    assert pairs[..i + 1][..i] == pairs[..i];
  }

  lemma NoPairMessages()
    ensures PairMessages([]) == []
  {
  }

  lemma FlattenedPairs(head: seq<Message>, pairs: seq<Pair>)
    ensures |PairMessages(pairs)| == 2 * |pairs|
    ensures forall i :: 0 <= i < |pairs| ==>
              (head + PairMessages(pairs))[|head| + 2 * i] == Message(User, pairs[i].user)
              && (head + PairMessages(pairs))[|head| + 2 * i + 1] == Message(Assistant, pairs[i].assistant)
  {
    hide PairMessages, TakesTurns;
    PairMessagesTakeTurns(pairs);
    forall i | 0 <= i < |pairs|
      ensures (head + PairMessages(pairs))[|head| + 2 * i] == Message(User, pairs[i].user)
      ensures (head + PairMessages(pairs))[|head| + 2 * i + 1] == Message(Assistant, pairs[i].assistant)
    {
      PairMessageAt(pairs, i);
    }
  }

  /** `flatten_pairs`. */
  method FlattenPairs(pairs: seq<Pair>, summary: string) returns (messages: seq<Message>)
    ensures messages == SummaryMessages(summary) + PairMessages(pairs)
    ensures |messages| == |SummaryMessages(summary)| + 2 * |pairs|
    ensures var head := |SummaryMessages(summary)|;
            forall i :: 0 <= i < |pairs| ==>
              messages[head + 2 * i] == Message(User, pairs[i].user)
              && messages[head + 2 * i + 1] == Message(Assistant, pairs[i].assistant)
  {
    hide PairMessages;
    messages := [];
    NoPairMessages();
    if Strip(summary) != "" {
      messages := messages + [Message(User, SUMMARY_PREFIX + if |summary| <= SUMMARY_CHAR_CAP then summary else summary[..SUMMARY_CHAR_CAP])];
      messages := messages + [Message(Assistant, SUMMARY_REPLY)];
    }
    for i := 0 to |pairs|
      invariant messages == SummaryMessages(summary) + PairMessages(pairs[..i])
    {
      PairMessagesStep(pairs, i);
      messages := messages + [Message(User, pairs[i].user)];
      messages := messages + [Message(Assistant, pairs[i].assistant)];
    }
    assert pairs[..|pairs|] == pairs;
    FlattenedPairs(SummaryMessages(summary), pairs);
  }

  function MessageChars(messages: seq<Message>): nat {
    if messages == [] then 0 else MessageChars(messages[..|messages| - 1]) + |messages[|messages| - 1].content|
  }

  lemma {:induction false} TotalCharsSnoc(pairs: seq<Pair>, p: Pair)
    ensures TotalChars(pairs + [p]) == TotalChars(pairs) + PairChars(p)
  {
    if pairs == [] {
      assert [] + [p] == [p] && [p][1..] == [];
    } else {
      assert (pairs + [p])[1..] == pairs[1..] + [p];
      TotalCharsSnoc(pairs[1..], p);
    }
  }

  lemma {:induction false} MessageCharsAppend(a: seq<Message>, b: seq<Message>)
    ensures MessageChars(a + b) == MessageChars(a) + MessageChars(b)
  {
    if b == [] {
      assert a + b == a;
    } else {
      MessageCharsAppend(a, b[..|b| - 1]);
      assert (a + b)[..|a + b| - 1] == a + b[..|b| - 1];
    }
  }

  lemma {:induction false} PairMessageChars(pairs: seq<Pair>)
    ensures MessageChars(PairMessages(pairs)) == TotalChars(pairs)
  {
    if pairs != [] {
      var front, p := pairs[..|pairs| - 1], pairs[|pairs| - 1];
      var two := [Message(User, p.user), Message(Assistant, p.assistant)];
      PairMessageChars(front);
      MessageCharsAppend(PairMessages(front), two);
      TwoChars(two[0], two[1]);
      TotalCharsSnoc(front, p);
      assert pairs == front + [p];
    }
  }

  lemma TwoChars(a: Message, b: Message)
    ensures MessageChars([a, b]) == |a.content| + |b.content|
  {
    MessageCharsAppend([a], [b]);
    assert [a] + [b] == [a, b] && [a][..0] == [] && [b][..0] == [];
  }

  /**
   * What the model is shown: speakers in turn, the kept pairs word for word, and, when the kept tail fits,
   * no more characters than the budget and the fixed words around the summary.
   */
  lemma ShownHistoryIsBounded(kept: seq<Pair>, summary: string, budget: int)
    requires Fits(kept, summary, budget)
    ensures var messages := SummaryMessages(summary) + PairMessages(kept);
            && TakesTurns(messages)
            && MessageChars(messages) <= budget + |SUMMARY_PREFIX| + |SUMMARY_REPLY|
  {
    var head, tail := SummaryMessages(summary), PairMessages(kept);
    PairMessagesTakeTurns(kept);
    PairMessageChars(kept);
    MessageCharsAppend(head, tail);
    if head != [] { TwoChars(head[0], head[1]); }
    assert TakesTurns(head) by { hide PairMessages, MessageChars, Strip; }
    TurnsAppend(head, tail);
    hide PairMessages, TakesTurns, Strip;
  }

  /** Nothing is dropped: the pairs for the summary and the kept pairs together say what all the pairs say. */
  lemma {:induction false} SplitLosesNothing(compact: seq<Pair>, kept: seq<Pair>)
    ensures PairMessages(compact + kept) == PairMessages(compact) + PairMessages(kept)
  {
    if kept == [] {
      assert compact + kept == compact;
    } else {
      SplitLosesNothing(compact, kept[..|kept| - 1]);
      assert (compact + kept)[..|compact + kept| - 1] == compact + kept[..|kept| - 1];
    }
  }
}

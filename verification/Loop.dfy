/** The bounded run: one transition budget shared by the state machine and the tool-calling loop, and bounded goal rounds. */
module Loop {
  import opened Text
  import opened Delivery
  import opened EffectTruth
  import opened GoalGate
  import opened Feedback
  import opened Scheduling
  import opened Transcript

  const MAX_VERIFICATION_FEEDBACK_ROUNDS: nat := 2

  // The goal contract and its rounds.

  datatype Contract = Contract(
    objective: string,
    originalRequest: string,
    outcomes: seq<Outcome>,
    requirements: seq<Requirement>,
    prohibited: seq<string>,
    criteria: seq<Criterion>)

  datatype Goal = Goal(
    contract: Contract,
    id: string,
    version: int,
    status: GoalStatus,
    round: nat,
    maxRounds: nat,
    evidence: seq<Evidence>,
    blocker: Code)

  /** `with_contract`: a new version only for a real revision of an installed contract. */
  function WithContract(g: Goal, contract: Contract, id: string, version: Option<int>): Goal {
    var revised := Revises(g, contract);
    Goal(contract, id,
         if version.Some? then version.value else if revised then g.version + 1 else g.version,
         if revised then Active else g.status, g.round, g.maxRounds,
         if revised then [] else g.evidence, if revised then NoCode else g.blocker)
  }

  predicate Revises(g: Goal, contract: Contract) {
    g.contract.originalRequest != "" && g.contract != contract
  }

  function InstallAll(g: Goal, contracts: seq<Contract>, id: string): Goal {
    if contracts == [] then g else WithContract(InstallAll(g, contracts[..|contracts| - 1], id), contracts[|contracts| - 1], id, None)
  }

  /** Over any installations the version rises by at most one each, the rounds never move, and repeating the last contract is a no-op. */
  lemma {:induction false} InstallingContracts(g: Goal, contracts: seq<Contract>, id: string)
    ensures var e := InstallAll(g, contracts, id);
            && g.version <= e.version <= g.version + |contracts|
            && e.round == g.round && e.maxRounds == g.maxRounds
            && (contracts != [] ==> WithContract(e, contracts[|contracts| - 1], id, None) == e)
  {
    if contracts != [] { InstallingContracts(g, contracts[..|contracts| - 1], id); }
  }

  /**
   * A contract takes the place of the old one, under the new id. Where it really revises an installed one the goal starts
   * afresh: active, without evidence or blocker, one version on; otherwise nothing else changes.
   */
  lemma InstalledContract(g: Goal, contract: Contract, id: string)
    ensures var e := WithContract(g, contract, id, None);
            && e.contract == contract && e.id == id
            && if g.contract.originalRequest != "" && g.contract != contract
               then e.version == g.version + 1 && e.status == Active && e.evidence == [] && e.blocker == NoCode
               else e == g.(contract := contract, id := id)
    ensures forall version :: WithContract(g, contract, id, Some(version)) == WithContract(g, contract, id, None).(version := version)
  {
  }

  /** `next_round`: one more round, or the round limit. */
  function NextRound(g: Goal): Goal {
    if g.round >= g.maxRounds then g.(status := GoalFailed, blocker := GoalRoundLimit) else g.(round := g.round + 1)
  }

  /** A goal that already carries a failure; its next round is counted and still refused. */
  predicate Spent(g: Goal) { g.status == GoalFailed && g.blocker != NoCode }

  class RunState {
    var goal: Goal
    var feedbackRounds: nat
    var terminalStatus: RunStatus
    var failureCode: Code
    var budgetExhausted: bool

    constructor (goal: Goal)
      ensures this.goal == goal && feedbackRounds == 0 && terminalStatus == Unset && failureCode == NoCode && !budgetExhausted
    {
      this.goal, feedbackRounds, terminalStatus, failureCode, budgetExhausted := goal, 0, Unset, NoCode, false;
    }

    /** `_advance_goal_round`: admits one more round unless the limit is reached or the goal has already failed. */
    method AdvanceGoalRound() returns (admitted: bool)
      modifies this`goal, this`terminalStatus, this`failureCode, this`budgetExhausted
      ensures admitted <==> old(goal.round < goal.maxRounds && !Spent(goal))
      ensures goal ==
              if old(goal.round < goal.maxRounds) then old(goal).(round := old(goal.round) + 1)
              else old(goal).(status := GoalFailed, blocker := GoalRoundLimit)
      ensures admitted ==> terminalStatus == old(terminalStatus) && failureCode == old(failureCode)
      ensures !admitted ==> Spent(goal) && terminalStatus == FailedTerminal && failureCode == goal.blocker && budgetExhausted
      ensures admitted ==> budgetExhausted == old(budgetExhausted)
    {
      goal := NextRound(goal);
      if goal.status == GoalFailed && goal.blocker != NoCode {
        terminalStatus, failureCode, budgetExhausted := FailedTerminal, goal.blocker, true;
        return false;
      }
      return true;
    }
  }

  // The budget.

  /** The first exhausted limit, looked up at some later moment. */
  function ExhaustedLimit(
    transitions: nat, maxTransitions: int, startedAt: Option<int>, maxSeconds: int, recoveries: nat, maxRecoveries: int, now: int): Code
  {
    if transitions > maxTransitions then TransitionBudget
    else if startedAt.Some? && now - startedAt.value > maxSeconds then TimeBudget
    else if recoveries > maxRecoveries then RecoveryBudget
    else NoCode
  }

  class RunBudget {
    const maxSeconds: int
    const maxTransitions: int
    const maxRecoveries: int
    var transitions: nat
    var recoveries: nat
    var startedAt: Option<int>

    constructor (maxSeconds: int, maxTransitions: int, maxRecoveries: int)
      ensures this.maxSeconds == maxSeconds && this.maxTransitions == maxTransitions && this.maxRecoveries == maxRecoveries
      ensures transitions == 0 && recoveries == 0 && startedAt == None
    {
      this.maxSeconds, this.maxTransitions, this.maxRecoveries := maxSeconds, maxTransitions, maxRecoveries;
      transitions, recoveries, startedAt := 0, 0, None;
    }

    /** How many transitions may still be granted. */
    function Left(): nat
      reads this
    {
      if transitions < maxTransitions then maxTransitions - transitions else 0
    }

    method ConsumeTransition(now: int) returns (granted: bool)
      modifies this`transitions, this`startedAt
      ensures transitions == old(transitions) + 1
      ensures startedAt == Some(old(startedAt).GetOr(now))
      ensures granted <==> old(Left()) > 0 && now - startedAt.value <= maxSeconds
    {
      if startedAt.None? {
        startedAt := Some(now);
      }
      transitions := transitions + 1;
      return transitions <= maxTransitions && now - startedAt.value <= maxSeconds;
    }

    function ExhaustedCode(now: int): Code
      reads this
    {
      ExhaustedLimit(transitions, maxTransitions, startedAt, maxSeconds, recoveries, maxRecoveries, now)
    }
  }

  ghost predicate Monotone(clock: nat -> int) { forall i, j :: 0 <= i <= j ==> clock(i) <= clock(j) }

  lemma TicksGrow(ticks: nat -> int, n: nat)
    ensures Monotone(ticks) ==> ticks(n) <= ticks(n + 1)
  {
  }

  /** The run was ended by a limit, by that of transitions exactly when more were asked for than there are. */
  predicate StoppedAtLimit(state: RunState, budget: RunBudget)
    reads state, budget
  {
    && state.terminalStatus == FailedTerminal && state.budgetExhausted && state.failureCode != NoCode
    && (state.failureCode == TransitionBudget <==> budget.transitions > budget.maxTransitions)
  }

  /** A transition refused at one moment ends the run with the limit found exhausted at the next. */
  method StopAtLimit(state: RunState, budget: RunBudget, ghost refusedAt: int, now: int)
    requires budget.startedAt.Some?
    requires budget.transitions > budget.maxTransitions || refusedAt - budget.startedAt.value > budget.maxSeconds
    modifies state`terminalStatus, state`failureCode, state`budgetExhausted
    ensures StoppedAtLimit(state, budget)
    ensures refusedAt <= now ==> state.failureCode == TransitionBudget || state.failureCode == TimeBudget
    ensures state.failureCode ==
            if budget.transitions > budget.maxTransitions then TransitionBudget
            else if now - budget.startedAt.value > budget.maxSeconds then TimeBudget
            else if budget.recoveries > budget.maxRecoveries then RecoveryBudget
            else RuntimeBudget
  {
    var code := budget.ExhaustedCode(now);
    state.terminalStatus, state.budgetExhausted := FailedTerminal, true;
    state.failureCode := if code != NoCode then code else RuntimeBudget;
  }

  // The loop.

  /** Everything the loop cannot see coming: the model's turns, tool results, what the state then holds, and the clock. */
  datatype Surroundings = Surroundings(
    model: nat -> Turn,
    replies: nat -> (nat, nat) -> Reply,
    facts: nat -> RunFacts,
    words: seq<Gap> -> string,
    clock: nat -> int)

  function Max(a: int, b: int): int { if a < b then b else a }

  /** How many messages the first `n` turns leave: a rejected answer two, a turn with calls one and one for each call. */
  function Offset(model: nat -> Turn, n: nat): nat {
    if n == 0 then 0 else Offset(model, n - 1) + if model(n - 1).calls == [] then 2 else 1 + |model(n - 1).calls|
  }

  /**
   * What the transcript says of a turn: its calls and their answers, or an answer that lacks something and the
   * feedback it met.
   */
  ghost predicate TurnTold(transcript: seq<Utterance>, at: nat, tools: map<string, Tool>, around: Surroundings, n: nat) {
    var turn := around.model(n);
    if turn.calls == [] then
      && at + 2 <= |transcript| && !FeedbackDemandsMet(around.facts(n), Strip(turn.content))
      && transcript[at] == Utterance(Assistant, Strip(turn.content), "", "", [])
      && transcript[at + 1] == Utterance(User, around.words(FeedbackGaps(around.facts(n), Strip(turn.content))), "", "", [])
    else StepTold(transcript, at, turn, tools, around.replies(n))
  }

  /** The transcript is the opening messages and then the first `n` turns, in order. */
  ghost predicate Told(transcript: seq<Utterance>, opening: seq<Utterance>, tools: map<string, Tool>, around: Surroundings, n: nat) {
    && |transcript| == |opening| + Offset(around.model, n) && Continues(transcript, opening)
    && forall m :: 0 <= m < n ==> TurnTold(transcript, |opening| + Offset(around.model, m), tools, around, m)
  }

  lemma TurnStaysTold(after: seq<Utterance>, before: seq<Utterance>, at: nat, tools: map<string, Tool>, around: Surroundings, n: nat)
    requires Continues(after, before) && TurnTold(before, at, tools, around, n)
    ensures TurnTold(after, at, tools, around, n)
  {
    hide StepTold, FeedbackDemandsMet, FeedbackGaps;
    if around.model(n).calls == [] {
      assert Kept(after[at], before[at]) && Kept(after[at + 1], before[at + 1]);
    } else {
      StepStaysTold(after, before, at, around.model(n), tools, around.replies(n));
    }
  }

  lemma OneMoreTold(after: seq<Utterance>, before: seq<Utterance>, opening: seq<Utterance>, tools: map<string, Tool>, around: Surroundings, n: nat)
    requires Told(before, opening, tools, around, n) && Continues(after, before)
    requires TurnTold(after, |before|, tools, around, n)
    requires |after| == |before| + if around.model(n).calls == [] then 2 else 1 + |around.model(n).calls|
    ensures Told(after, opening, tools, around, n + 1)
  {
    hide TurnTold, Continues;
    ContinuesOn(after, before, opening);
    forall m | 0 <= m < n ensures TurnTold(after, |opening| + Offset(around.model, m), tools, around, m) {
      TurnStaysTold(after, before, |opening| + Offset(around.model, m), tools, around, m);
    }
  }

  lemma NothingTold(opening: seq<Utterance>, tools: map<string, Tool>, around: Surroundings)
    ensures Told(opening, opening, tools, around, 0)
  {
  }

  lemma StepIsOneMore(after: seq<Utterance>, before: seq<Utterance>, opening: seq<Utterance>, tools: map<string, Tool>, around: Surroundings, n: nat)
    requires Told(before, opening, tools, around, n) && Continues(after, before) && around.model(n).calls != []
    requires |after| == |before| + 1 + |around.model(n).calls| && StepTold(after, |before|, around.model(n), tools, around.replies(n))
    ensures Told(after, opening, tools, around, n + 1)
  {
    hide StepTold, Continues, Told;
    OneMoreTold(after, before, opening, tools, around, n);
  }

  lemma FeedbackIsOneMore(after: seq<Utterance>, before: seq<Utterance>, opening: seq<Utterance>, tools: map<string, Tool>, around: Surroundings, n: nat)
    requires Told(before, opening, tools, around, n) && around.model(n).calls == []
    requires !FeedbackDemandsMet(around.facts(n), Strip(around.model(n).content))
    requires after == before + [
               Utterance(Assistant, Strip(around.model(n).content), "", "", []),
               Utterance(User, around.words(FeedbackGaps(around.facts(n), Strip(around.model(n).content))), "", "", [])]
    ensures Told(after, opening, tools, around, n + 1)
  {
    hide Told, FeedbackDemandsMet, FeedbackGaps;
    ContinuesWith(before, after[|before|..]);
    assert before + after[|before|..] == after;
    OneMoreTold(after, before, opening, tools, around, n);
  }

  /** The facts that say why a run ended. */
  function Ending(state: RunState): (RunStatus, Code, bool)
    reads state
  {
    (state.terminalStatus, state.failureCode, state.budgetExhausted)
  }

  /** The goal has no round left or carries a failure, and the run says so. */
  predicate EndedByGoal(state: RunState)
    reads state
  {
    Spent(state.goal) && state.terminalStatus == FailedTerminal && state.failureCode == state.goal.blocker && state.budgetExhausted
  }

  /** Judges an answer: while feedback is allowed and something is missing, the run is told so and goes on. */
  method SendBack(state: RunState, facts: RunFacts, text: string, words: seq<Gap> -> string, transcript: seq<Utterance>)
    returns (again: bool, extended: seq<Utterance>)
    modifies state
    ensures again <==>
              && !FeedbackDemandsMet(facts, text) && old(state.feedbackRounds) < MAX_VERIFICATION_FEEDBACK_ROUNDS
              && old(state.goal.round < state.goal.maxRounds && !Spent(state.goal))
    ensures again ==> state.feedbackRounds == old(state.feedbackRounds) + 1 <= MAX_VERIFICATION_FEEDBACK_ROUNDS
    ensures again ==> state.goal == old(state.goal).(round := old(state.goal.round) + 1) && state.goal.round <= state.goal.maxRounds
    ensures again ==> Ending(state) == old(Ending(state))
    ensures again ==>
              extended == transcript + [
                Utterance(Assistant, text, "", "", []), Utterance(User, words(FeedbackGaps(facts, text)), "", "", [])]
    ensures !again ==> state.feedbackRounds == old(state.feedbackRounds) && extended == transcript
    ensures !again ==> state.goal.round == old(state.goal.round) || Spent(old(state.goal))
    ensures state.goal.round <= Max(old(state.goal.round), state.goal.maxRounds) && state.goal.maxRounds == old(state.goal.maxRounds)
    ensures !again ==>
              || FeedbackDemandsMet(facts, text)
              || state.feedbackRounds >= MAX_VERIFICATION_FEEDBACK_ROUNDS || Spent(state.goal)
    ensures !again ==>
              if FeedbackDemandsMet(facts, text) || state.feedbackRounds >= MAX_VERIFICATION_FEEDBACK_ROUNDS
              then Ending(state) == old(Ending(state)) && state.goal == old(state.goal) else EndedByGoal(state)
    ensures Paired(transcript) ==> Paired(extended)
  {
    hide Paired, FeedbackGaps, FeedbackDemandsMet;
    again, extended := false, transcript;
    var gaps := VerificationGaps(facts, text);
    FeedbackGapsMeaning(facts, text);
    if gaps != [] && state.feedbackRounds < MAX_VERIFICATION_FEEDBACK_ROUNDS {
      again := state.AdvanceGoalRound();
    }
    if again {
      state.feedbackRounds := state.feedbackRounds + 1;
      var feedback := [Utterance(Assistant, text, "", "", []), Utterance(User, words(gaps), "", "", [])];
      NoCallsIsPaired(feedback);
      if Paired(transcript) { PairedAppend(transcript, feedback); }
      extended := transcript + feedback;
    }
  }

  /**
   * `AgentLoop.run`. Every model turn is paid for from the shared budget, at most two turns end in
   * verifier feedback, and while feedback is allowed only an answer is let through whose run has all files,
   * outcomes and fresh sources it was asked for. The transcript tells every turn but the one that is let through.
   */
  method Run(state: RunState, budget: RunBudget, tools: map<string, Tool>, around: Surroundings, opening: seq<Utterance>)
    returns (answer: Option<string>, turns: nat, refused: bool, transcript: seq<Utterance>)
    modifies state, budget
    ensures turns <= old(budget.Left())
    ensures budget.transitions == old(budget.transitions) + turns + if refused then 1 else 0
    ensures refused ==> answer == None && StoppedAtLimit(state, budget)
    ensures refused && Monotone(around.clock) ==> state.failureCode == TransitionBudget || state.failureCode == TimeBudget
    ensures !refused ==> Ending(state) == old(Ending(state)) || EndedByGoal(state)
    ensures old(state.feedbackRounds) <= state.feedbackRounds <= Max(old(state.feedbackRounds), MAX_VERIFICATION_FEEDBACK_ROUNDS)
    ensures state.goal.round <= Max(old(state.goal.round), state.goal.maxRounds) && state.goal.maxRounds == old(state.goal.maxRounds)
    ensures !Spent(old(state.goal)) ==> state.goal.round - old(state.goal.round) == state.feedbackRounds - old(state.feedbackRounds)
    ensures !refused ==> turns > 0 && around.model(turns - 1).calls == []
    ensures !refused ==> answer == var text := Strip(around.model(turns - 1).content); if text == "" then None else Some(text)
    ensures !refused ==>
              || FeedbackDemandsMet(around.facts(turns - 1), Strip(around.model(turns - 1).content))
              || state.feedbackRounds >= MAX_VERIFICATION_FEEDBACK_ROUNDS || Spent(state.goal)
    ensures Told(transcript, opening, tools, around, if refused then turns else turns - 1)
    ensures Paired(opening) ==> Paired(transcript)
  {
    hide Paired, FeedbackDemandsMet, FeedbackGaps, Told, StepTold, Continues, Answers, Heard, StoppedAtLimit;
    transcript, turns, refused := opening, 0, false;
    var callIndex := 0;
    NothingTold(opening, tools, around);
    while true
      invariant budget.transitions == old(budget.transitions) + turns
      invariant turns + budget.Left() <= old(budget.Left())
      invariant old(state.feedbackRounds) <= state.feedbackRounds <= Max(old(state.feedbackRounds), MAX_VERIFICATION_FEEDBACK_ROUNDS)
      invariant state.goal.round <= Max(old(state.goal.round), state.goal.maxRounds) && state.goal.maxRounds == old(state.goal.maxRounds)
      invariant Spent(state.goal) == Spent(old(state.goal))
      invariant !Spent(old(state.goal)) ==> state.goal.round - old(state.goal.round) == state.feedbackRounds - old(state.feedbackRounds)
      invariant Ending(state) == old(Ending(state))
      invariant Told(transcript, opening, tools, around, turns)
      invariant Paired(opening) ==> Paired(transcript)
      decreases budget.Left()
    {
      var granted := budget.ConsumeTransition(around.clock(turns));
      if !granted {
        StopAtLimit(state, budget, around.clock(turns), around.clock(turns + 1));
        TicksGrow(around.clock, turns);
        return None, turns, true, transcript;
      }
      var turn := around.model(turns);
      ghost var before := transcript;
      turns := turns + 1;
      if turn.calls == [] {
        var text := Strip(turn.content);
        var again;
        again, transcript := SendBack(state, around.facts(turns - 1), text, around.words, transcript);
        if again {
          FeedbackIsOneMore(transcript, before, opening, tools, around, turns - 1);
          continue;
        }
        return if text == "" then None else Some(text), turns, false, transcript;
      }
      ghost var messages;
      transcript, callIndex, messages := AnswerCalls(transcript, turn, tools, callIndex, around.replies(turns - 1));
      StepIsOneMore(transcript, before, opening, tools, around, turns - 1);
    }
  }

  // The outer state machine.

  datatype Phase = Init | Plan | InLoop | Finish | Fail

  /** What a visit to the planner comes to. */
  datatype Planned = Planned(next: Phase, answer: Option<string>)

  /** What the user is told when a limit ends the run before anything was said. */
  function LimitReached(): (text: string)
    ensures text == "任务执行达到时间或步骤上限，已停止继续重试。"
  {
    "任务执行达到时间或步骤上限，已停止继续重试。"
  }

  /** An answer that is not empty. */
  predicate Speaks(answer: Option<string>) { answer.Some? && answer.value != "" }

  /** One granted visit: INIT leads to PLAN, PLAN to where a counted round's plan says, LOOP to the end. */
  method PassPhase(
    phase: Phase, state: RunState, budget: RunBudget, tools: map<string, Tool>, around: Surroundings,
    planner: nat -> Planned, visits: nat, opening: seq<Utterance>)
    returns (next: Phase, spoken: Option<string>, turns: nat, visited: nat, cut: bool)
    requires phase != Finish && phase != Fail
    modifies state, budget
    ensures phase == Init ==> next == Plan && spoken == None && visited == 0 && !cut
    ensures phase == Plan ==> visited == 1 && !cut
    ensures phase == Plan && old(state.goal.round < state.goal.maxRounds && !Spent(state.goal)) ==>
              next == planner(visits).next && spoken == planner(visits).answer
    ensures phase == Plan && !old(state.goal.round < state.goal.maxRounds && !Spent(state.goal)) ==>
              next == Finish && spoken == None && EndedByGoal(state)
    ensures phase == InLoop ==> next == Finish && visited == 0
    ensures phase == InLoop && cut ==> spoken == None && StoppedAtLimit(state, budget)
    ensures phase == InLoop && !cut ==>
              && turns > 0 && around.model(turns - 1).calls == []
              && spoken == var text := Strip(around.model(turns - 1).content); if text == "" then None else Some(text)
    ensures next != Finish ==> turns == 0 && budget.transitions == old(budget.transitions)
    ensures turns <= old(budget.Left()) && (turns > 0 ==> phase == InLoop)
    ensures budget.transitions >= old(budget.transitions) + turns
    ensures state.goal.round <= Max(old(state.goal.round), state.goal.maxRounds) && state.goal.maxRounds == old(state.goal.maxRounds)
    ensures old(state.feedbackRounds) <= state.feedbackRounds <= Max(old(state.feedbackRounds), MAX_VERIFICATION_FEEDBACK_ROUNDS)
    ensures next != Finish && !Spent(old(state.goal)) ==> !Spent(state.goal)
    ensures !Spent(old(state.goal)) ==>
              state.goal.round - old(state.goal.round) <= visited + state.feedbackRounds - old(state.feedbackRounds)
  {
    hide Told, Paired, FeedbackDemandsMet, Strip, StoppedAtLimit;
    next, spoken, turns, visited, cut := Finish, None, 0, 0, false;
    match phase
    case Init =>
      next := Plan;
    case Plan =>
      var admitted := state.AdvanceGoalRound();
      visited := 1;
      if admitted {
        var planned := planner(visits);
        next, spoken := planned.next, planned.answer;
      }
    case InLoop =>
      var transcript;
      spoken, turns, cut, transcript := Run(state, budget, tools, around, opening);
  }

  /** The answer that stands after the first `n` visits to the planner: the last one that said anything. */
  ghost predicate Stands(answer: Option<string>, planner: nat -> Planned, n: nat) {
    (answer == None && forall m :: 0 <= m < n ==> planner(m).answer.GetOr("") == "")
    || exists m :: 0 <= m < n && answer == planner(m).answer && answer.GetOr("") != ""
         && forall k :: m < k < n ==> planner(k).answer.GetOr("") == ""
  }

  lemma StandsOn(answer: Option<string>, planner: nat -> Planned, n: nat)
    requires Stands(answer, planner, n)
    ensures Stands(if Speaks(planner(n).answer) then planner(n).answer else answer, planner, n + 1)
  {
  }

  /** The text of the turn the tool loop let through, as its last. */
  ghost predicate LetThrough(text: string, around: Surroundings, turns: nat) {
    turns > 0 && around.model(turns - 1).calls == [] && text == Strip(around.model(turns - 1).content)
  }

  /** How far a run of the phases has come: what planning said, and what the user would be told now. */
  ghost predicate SoFar(
    phase: Phase, answer: Option<string>, said: Option<string>, planner: nat -> Planned, planned: nat, visits: nat,
    around: Surroundings, turns: nat, entered: bool, cut: bool)
  {
    && Stands(said, planner, planned)
    && (forall m :: 0 <= m < planned - 1 ==> planner(m).next in {Init, Plan})
    && (visits == planned || (visits == planned + 1 && phase == Finish && !entered))
    && (!(entered && !cut) ==> answer == said)
    && (entered && !cut ==> exists text :: LetThrough(text, around, turns) && answer == if text == "" then said else Some(text))
    && (entered ==> planned > 0 && planner(planned - 1).next == InLoop && phase == Finish)
    && (!entered ==> turns == 0 && !cut)
    && (!entered && visits == planned ==>
          if planned == 0 then phase in {Init, Plan}
          else phase == planner(planned - 1).next || (phase == Plan && planner(planned - 1).next == Init))
  }

  lemma Begins(planner: nat -> Planned, around: Surroundings)
    ensures SoFar(Init, None, None, planner, 0, 0, around, 0, false, false)
  {
  }

  lemma PlanningBegins(
    answer: Option<string>, said: Option<string>, planner: nat -> Planned, planned: nat, visits: nat, around: Surroundings)
    requires SoFar(Init, answer, said, planner, planned, visits, around, 0, false, false)
    ensures SoFar(Plan, answer, said, planner, planned, visits, around, 0, false, false)
  {
  }

  lemma PlanningEnds(
    answer: Option<string>, said: Option<string>, planner: nat -> Planned, planned: nat, visits: nat, around: Surroundings)
    requires SoFar(Plan, answer, said, planner, planned, visits, around, 0, false, false)
    ensures visits == planned
    ensures SoFar(Finish, answer, said, planner, planned, visits + 1, around, 0, false, false)
    ensures var now := if Speaks(planner(planned).answer) then planner(planned).answer else answer;
            SoFar(planner(planned).next, now, now, planner, planned + 1, visits + 1, around, 0, false, false)
  {
    StandsOn(said, planner, planned);
    hide Stands;
  }

  lemma LoopEnds(
    answer: Option<string>, said: Option<string>, planner: nat -> Planned, planned: nat, visits: nat, around: Surroundings,
    text: string, turns: nat, cut: bool)
    requires SoFar(InLoop, answer, said, planner, planned, visits, around, 0, false, false)
    requires !cut ==> turns > 0 && around.model(turns - 1).calls == [] && text == Strip(around.model(turns - 1).content)
    ensures SoFar(
              Finish, if cut || text == "" then answer else Some(text), said, planner, planned, visits, around, turns, true, cut)
  {
    assert !cut ==> LetThrough(text, around, turns);
    hide Stands, LetThrough;
  }

  /** One granted visit and what it leaves to tell the user. */
  method Pass(
    phase: Phase, answer: Option<string>, state: RunState, budget: RunBudget, tools: map<string, Tool>, around: Surroundings,
    planner: nat -> Planned, visits: nat, opening: seq<Utterance>, ghost said: Option<string>, ghost planned: nat)
    returns (next: Phase, best: Option<string>, turns: nat, visited: nat,
             ghost saidNow: Option<string>, ghost plannedNow: nat, ghost cut: bool)
    requires phase != Finish && phase != Fail
    requires SoFar(phase, answer, said, planner, planned, visits, around, 0, false, false)
    modifies state, budget
    ensures SoFar(next, best, saidNow, planner, plannedNow, visits + visited, around, turns, phase == InLoop, cut)
    ensures visits + visited > plannedNow ==> next == Finish && EndedByGoal(state)
    ensures cut ==> StoppedAtLimit(state, budget)
    ensures phase == Init ==> next == Plan
    ensures next != Finish ==> turns == 0 && budget.transitions == old(budget.transitions) && phase != InLoop && !cut
    ensures turns <= old(budget.Left()) && (turns > 0 ==> phase == InLoop)
    ensures budget.transitions >= old(budget.transitions) + turns
    ensures state.goal.round <= Max(old(state.goal.round), state.goal.maxRounds) && state.goal.maxRounds == old(state.goal.maxRounds)
    ensures old(state.feedbackRounds) <= state.feedbackRounds <= Max(old(state.feedbackRounds), MAX_VERIFICATION_FEEDBACK_ROUNDS)
    ensures next != Finish && !Spent(old(state.goal)) ==> !Spent(state.goal)
    ensures !Spent(old(state.goal)) ==>
              state.goal.round - old(state.goal.round) <= visited + state.feedbackRounds - old(state.feedbackRounds)
  {
    hide Strip, SoFar, Spent, EndedByGoal, StoppedAtLimit;
    var spoken, stopped;
    next, spoken, turns, visited, stopped := PassPhase(phase, state, budget, tools, around, planner, visits, opening);
    best := if Speaks(spoken) then spoken else answer;
    saidNow, plannedNow, cut := said, planned, stopped;
    match phase {
      case Init =>
        PlanningBegins(answer, said, planner, planned, visits, around);
      case Plan =>
        PlanningEnds(answer, said, planner, planned, visits, around);
        if old(state.goal.round < state.goal.maxRounds && !Spent(state.goal)) { saidNow, plannedNow := best, planned + 1; }
      case _ =>
        Counted(phase, answer, said, planner, planned, visits, around);
        LoopEnds(answer, said, planner, planned, visits, around, spoken.GetOr(""), turns, stopped);
    }
  }

  /** A visit is counted beyond the plans only where the run ends. */
  lemma Counted(
    phase: Phase, answer: Option<string>, said: Option<string>, planner: nat -> Planned, planned: nat, visits: nat, around: Surroundings)
    requires SoFar(phase, answer, said, planner, planned, visits, around, 0, false, false) && phase != Finish
    ensures visits == planned && answer == said && Stands(said, planner, planned)
  {
  }

  /**
   * The state loop of `_run_in_context`. INIT, PLAN and LOOP each cost a transition of the budget
   * the tool loop draws on, and the tool loop is entered at most once. The user is told what the tool loop let through,
   * or else the last thing planning said; a run that a limit ends before the tool loop always says something.
   */
  method RunPhases(
    state: RunState, budget: RunBudget, tools: map<string, Tool>, around: Surroundings, planner: nat -> Planned,
    ticks: nat -> int, opening: seq<Utterance>)
    returns (answer: Option<string>, last: Phase, turns: nat, visits: nat, refused: bool,
             ghost planned: nat, ghost entered: bool, ghost cut: bool, ghost said: Option<string>)
    modifies state, budget
    ensures !refused ==> SoFar(last, answer, said, planner, planned, visits, around, turns, entered, cut)
    ensures refused ==> Stands(said, planner, planned) && !entered
    ensures refused ==> answer == Some(said.GetOr(LimitReached()))
    ensures visits > planned ==> EndedByGoal(state)
    ensures cut ==> StoppedAtLimit(state, budget)
    ensures refused ==> last == Finish && answer.Some? && turns == 0
    ensures refused ==> StoppedAtLimit(state, budget)
    ensures refused && Monotone(ticks) ==> state.failureCode == TransitionBudget || state.failureCode == TimeBudget
    ensures turns <= Max(0, old(budget.Left()) - 3)
    ensures budget.transitions - old(budget.transitions) >= turns
    ensures last == Finish || last == Fail
    ensures state.goal.round <= Max(old(state.goal.round), state.goal.maxRounds) && state.goal.maxRounds == old(state.goal.maxRounds)
    ensures old(state.feedbackRounds) <= state.feedbackRounds <= Max(old(state.feedbackRounds), MAX_VERIFICATION_FEEDBACK_ROUNDS)
    ensures !Spent(old(state.goal)) ==>
              state.goal.round - old(state.goal.round) <= visits + state.feedbackRounds - old(state.feedbackRounds)
  {
    hide Monotone, LimitReached, Stands, Strip, SoFar, Spent, EndedByGoal, StoppedAtLimit;
    var phase := Init;
    answer, turns, visits, refused := None, 0, 0, false;
    planned, entered, cut, said := 0, false, false, None;
    var transitions := 0;
    ghost var begun, left, goal, feedback := budget.transitions, budget.Left(), state.goal, state.feedbackRounds;
    Begins(planner, around);
    while phase != Finish && phase != Fail
      invariant phase != Finish ==> turns == 0 && !refused && budget.transitions == begun + transitions
      invariant phase == Plan ==> transitions >= 1
      invariant phase == InLoop ==> transitions >= 2
      invariant refused ==> phase == Finish && turns == 0 && !entered
      invariant refused ==> Stands(said, planner, planned) && answer == Some(said.GetOr(LimitReached()))
      invariant !refused ==> SoFar(phase, answer, said, planner, planned, visits, around, turns, entered, cut)
      invariant phase != Finish ==> !entered && !cut
      invariant visits > planned ==> EndedByGoal(state) && phase == Finish
      invariant cut || refused ==> StoppedAtLimit(state, budget)
      invariant refused && Monotone(ticks) ==> state.failureCode == TransitionBudget || state.failureCode == TimeBudget
      invariant begun + turns <= budget.transitions
      invariant turns > 0 ==> turns + 3 <= left
      invariant state.goal.round <= Max(goal.round, state.goal.maxRounds) && state.goal.maxRounds == goal.maxRounds
      invariant feedback <= state.feedbackRounds <= Max(feedback, MAX_VERIFICATION_FEEDBACK_ROUNDS)
      invariant phase != Finish && !Spent(goal) ==> !Spent(state.goal)
      invariant !Spent(goal) ==>
                  state.goal.round - goal.round <= visits + state.feedbackRounds - feedback
      decreases if phase == Finish || phase == Fail then 0 else 1 + budget.Left()
    {
      var granted := budget.ConsumeTransition(ticks(transitions));
      transitions := transitions + 1;
      if !granted {
        TicksGrow(ticks, transitions - 1);
        Counted(phase, answer, said, planner, planned, visits, around);
        refused := true;
        answer := Some(answer.GetOr(LimitReached()));
        StopAtLimit(state, budget, ticks(transitions - 1), ticks(transitions));
        phase := Finish;
      } else {
        entered := phase == InLoop;
        var visited;
        phase, answer, turns, visited, said, planned, cut :=
          Pass(phase, answer, state, budget, tools, around, planner, visits, opening, said, planned);
        visits := visits + visited;
      }
    }
    last := phase;
  }
}

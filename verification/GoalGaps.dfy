/** Each gap the verifier can report, and each piece of evidence it can give, by what it says of the run. */
module GoalGaps {
  import opened Text
  import opened Delivery
  import opened EffectTruth
  import opened GoalGate

  /** A criterion is known by its kind, and by its text, or else its description, if it has either. */
  predicate KnownAs(c: Criterion, key: string) {
    if c.text != "" then key == c.kind + ":" + c.text
    else if c.description != "" then key == c.kind + ":" + c.description
    else key == c.kind
  }

  ghost predicate SomeCriterion(criteria: seq<Criterion>, key: string) {
    exists c :: c in criteria && c.kind != "unverifiable" && KnownAs(c, key)
  }

  /** A criterion with this key, of the goal itself or of a requirement of that id. */
  ghost predicate Asked(d: RunFacts, owner: string, key: string) {
    || (owner == "" && SomeCriterion(d.criteria, key))
    || exists r :: r in d.requirements && r.id == owner && SomeCriterion(r.criteria, key)
  }

  /** What a gap says. */
  ghost predicate Lacks(d: RunFacts, answer: string, g: Gap) {
    match g
    case FailedTask => exists t :: t in d.plan && t.status == Failed
    case PendingTask =>
      (forall t :: t in d.plan ==> t.status != Failed) && exists t :: t in d.plan && t.status != Succeeded && t.status != Skipped
    case EffectGap(id) =>
      exists r :: r in CopyRecords(d.requiredEffects) && r.effectId.GetOr("unknown") == id && r.effectId.GetOr("") !in VerifiedIds(d.verifiedEffects)
    case OutcomeGap(o) =>
      o in d.requestedOutcomes && o in {FileRead, FileMutation, CodeExecution, CommandExecution} && o !in VerifiedOutcomes(d.executionEvidence)
    case NoRequirements => d.artifactRequired && d.requirements == []
    case Undelivered(id, quantity) =>
      d.artifactRequired && exists i: nat :: ShortOf(d, i) && d.requirements[i].id == id && d.requirements[i].quantity == quantity
    case Unaccepted(owner, key) => Asked(d, owner, key) && (owner, key) !in d.acceptance
    case NoUserOutput => d.answerRequired && Strip(answer) == ""
    case NoFreshEvidence => (d.freshnessRequired || d.sourceGroundingRequired) && !Fresh(d)
    case StatusGap(_) => false
    case Unsupported => false
    case FailureGap(_) => false
  }

  /** Fewer files are assigned to the requirement than it asks for. */
  ghost predicate ShortOf(d: RunFacts, i: nat) {
    i < |d.requirements| && i < |Assignments(d)| && |Assignments(d)[i]| < d.requirements[i].quantity
  }

  lemma KeyIsKnown(c: Criterion, key: string)
    ensures KnownAs(c, key) <==> Key(c) == key
    ensures Verifiable(c) <==> c.kind != "unverifiable"
  {
  }

  lemma {:induction false} CriteriaListed(owner: string, criteria: seq<Criterion>, accepted: set<(string, string)>, g: Gap)
    ensures g in CriteriaGaps(owner, criteria, accepted) <==>
            g.Unaccepted? && g.owner == owner && SomeCriterion(criteria, g.key) && (owner, g.key) !in accepted
  {
    if criteria != [] {
      var front, last := criteria[..|criteria| - 1], criteria[|criteria| - 1];
      CriteriaListed(owner, front, accepted, g);
      KeyIsKnown(last, Key(last));
      if g.Unaccepted? { KeyIsKnown(last, g.key); }
      hide KnownAs, Key, Verifiable;
      assert criteria == front + [last];
    }
  }

  lemma {:induction false} RequirementsListed(rs: seq<Requirement>, accepted: set<(string, string)>, g: Gap)
    ensures g in RequirementGaps(rs, accepted) <==>
            g.Unaccepted? && (g.owner, g.key) !in accepted && exists r :: r in rs && r.id == g.owner && SomeCriterion(r.criteria, g.key)
  {
    if rs != [] {
      var front, last := rs[..|rs| - 1], rs[|rs| - 1];
      RequirementsListed(front, accepted, g);
      CriteriaListed(last.id, last.criteria, accepted, g);
      hide CriteriaGaps, SomeCriterion;
      assert rs == front + [last];
    }
  }

  lemma AcceptanceListed(d: RunFacts, g: Gap)
    ensures g in AcceptanceGaps(d) <==> g.Unaccepted? && Asked(d, g.owner, g.key) && (g.owner, g.key) !in d.acceptance
  {
    CriteriaListed("", d.criteria, d.acceptance, g);
    RequirementsListed(d.requirements, d.acceptance, g);
    hide CriteriaGaps, RequirementGaps, SomeCriterion;
  }

  lemma {:induction false} DeliveriesListed(rs: seq<Requirement>, assignments: seq<seq<string>>, g: Gap)
    requires |rs| <= |assignments|
    ensures g in DeliveryGaps(rs, assignments) <==>
            exists i :: 0 <= i < |rs| && |assignments[i]| < rs[i].quantity && g == Undelivered(rs[i].id, rs[i].quantity)
  {
    if rs != [] {
      var last := |rs| - 1;
      DeliveriesListed(rs[..last], assignments, g);
      assert forall i :: 0 <= i < last ==> rs[..last][i] == rs[i];
    }
  }

  lemma ArtifactsListed(d: RunFacts, g: Gap)
    ensures g in ArtifactGaps(d) <==> (g == NoRequirements || g.Undelivered?) && Lacks(d, "", g)
  {
    AssignLength(AvailablePaths(d.files, d.verifiedPaths), d.requirements);
    DeliveriesListed(d.requirements, Assignments(d), g);
    hide DeliveryGaps, Assign, AvailablePaths;
  }

  lemma WorkListed(d: RunFacts, g: Gap)
    ensures g in WorkGaps(d) <==> (g == FailedTask || g == PendingTask || g.EffectGap? || g.OutcomeGap?) && Lacks(d, "", g)
  {
    TasksListed(d.plan, g);
    EffectsListed(d, g);
    OutcomesListed(d, g);
    hide TaskGaps, EffectGaps, OutcomeGaps, UnresolvedEffects, UnresolvedOutcomes, CopyRecords, VerifiedIds, VerifiedOutcomes;
  }

  lemma TasksListed(plan: seq<TaskState>, g: Gap)
    ensures g in TaskGaps(plan) <==>
            || (g == FailedTask && exists t :: t in plan && t.status == Failed)
            || (g == PendingTask && (forall t :: t in plan ==> t.status != Failed)
                && exists t :: t in plan && t.status != Succeeded && t.status != Skipped)
  {
    if t :| t in plan && t.status == Failed {
      var i :| 0 <= i < |plan| && plan[i] == t;
    } else if t :| t in plan && t.status != Succeeded && t.status != Skipped {
      var i :| 0 <= i < |plan| && plan[i] == t;
    }
    assert forall i :: 0 <= i < |plan| ==> plan[i] in plan;
  }

  lemma EffectGapsMeaning(records: seq<Record>, g: Gap)
    ensures g in EffectGaps(records) <==> exists r :: r in records && g == EffectGap(r.effectId.GetOr("unknown"))
  {
    var gaps := EffectGaps(records);
    if r :| r in records && g == EffectGap(r.effectId.GetOr("unknown")) {
      var i :| 0 <= i < |records| && records[i] == r;
      assert gaps[i] == g;
    }
  }

  lemma EffectsListed(d: RunFacts, g: Gap)
    ensures g in EffectGaps(UnresolvedEffects(d)) <==> g.EffectGap? && Lacks(d, "", g)
  {
    UnverifiedMeaning(CopyRecords(d.requiredEffects), VerifiedIds(d.verifiedEffects));
    EffectGapsMeaning(UnresolvedEffects(d), g);
    hide CopyRecords, VerifiedIds, EffectGaps, Unverified;
  }

  lemma OutcomeGapsMeaning(outcomes: seq<Outcome>, g: Gap)
    ensures g in OutcomeGaps(outcomes) <==> g.OutcomeGap? && g.outcome in outcomes
  {
    var gaps := OutcomeGaps(outcomes);
    if g.OutcomeGap? && g.outcome in outcomes {
      var i :| 0 <= i < |outcomes| && outcomes[i] == g.outcome;
      assert gaps[i] == g;
    }
  }

  lemma OutcomesListed(d: RunFacts, g: Gap)
    ensures g in OutcomeGaps(UnresolvedOutcomes(d)) <==> g.OutcomeGap? && Lacks(d, "", g)
  {
    DistinctMeaning(d.requestedOutcomes);
    UnevidencedMeaning(Distinct(d.requestedOutcomes), VerifiedOutcomes(d.executionEvidence));
    OutcomeGapsMeaning(UnresolvedOutcomes(d), g);
    hide VerifiedOutcomes, OutcomeGaps, Unevidenced, Distinct;
  }

  /** The verifier lists a gap exactly when what it says is so. */
  lemma GapListedExactly(d: RunFacts, answer: string, g: Gap)
    ensures g in Gaps(d, answer) <==> Lacks(d, answer, g)
  {
    WorkListed(d, g);
    ArtifactsListed(d, g);
    AcceptanceListed(d, g);
    FiveParts(WorkGaps(d), ArtifactGaps(d), AcceptanceGaps(d), OutputGaps(d, answer), FreshnessGaps(d), g);
    hide WorkGaps, ArtifactGaps, AcceptanceGaps, Asked, Fresh;
  }

  /** The first successful observation by a source tool decides: fresh when it names a URL. */
  lemma FreshMeaning(d: RunFacts)
    ensures var observed := Observations(d.plan);
            Fresh(d) <==>
            || d.freshEvidence
            || exists k :: 0 <= k < |observed| && observed[k].succeeded && observed[k].fromSourceTool
                 && (exists url :: url in observed[k].sources && Strip(url) != "")
                 && forall j :: 0 <= j < k ==> !(observed[j].succeeded && observed[j].fromSourceTool)
  {
    var observed := Observations(d.plan);
    hide Observations, Strip;
    forall k | 0 <= k < |observed| ensures HasUrl(observed[k]) <==> exists url :: url in observed[k].sources && Strip(url) != "" {
      if url :| url in observed[k].sources && Strip(url) != "" {
        var i :| 0 <= i < |observed[k].sources| && observed[k].sources[i] == url;
      }
    }
    hide HasUrl;
    forall k | 0 <= k < |observed|
      ensures FirstFromSource(observed, k) <==>
              observed[k].succeeded && observed[k].fromSourceTool && forall j :: 0 <= j < k ==> !(observed[j].succeeded && observed[j].fromSourceTool)
    {
      assert forall j :: 0 <= j < k ==> observed[..k][j] == observed[j];
    }
  }

  /** What a piece of evidence says. */
  ghost predicate Shows(d: RunFacts, e: Evidence) {
    match e
    case EffectsVerified => CopyRecords(d.verifiedEffects) != []
    case ExecutionEvidenced => CopyRecords(d.executionEvidence) != []
    case TasksDone => d.plan != [] && forall t :: t in d.plan ==> t.status == Succeeded || t.status == Skipped
    case DeliverableVerified(id, quantity) =>
      d.artifactRequired && exists i: nat :: i < |d.requirements| && !ShortOf(d, i) && d.requirements[i].id == id && d.requirements[i].quantity == quantity
    case AcceptanceVerified(owner, key) => Asked(d, owner, key) && (owner, key) in d.acceptance
    case GatePassed => false
  }

  lemma {:induction false} CriteriaShown(owner: string, criteria: seq<Criterion>, accepted: set<(string, string)>, e: Evidence)
    ensures e in CriteriaEvidence(owner, criteria, accepted) <==>
            e.AcceptanceVerified? && e.owner == owner && SomeCriterion(criteria, e.key) && (owner, e.key) in accepted
  {
    if criteria != [] {
      var front, last := criteria[..|criteria| - 1], criteria[|criteria| - 1];
      CriteriaShown(owner, front, accepted, e);
      KeyIsKnown(last, Key(last));
      if e.AcceptanceVerified? { KeyIsKnown(last, e.key); }
      hide KnownAs, Key, Verifiable;
      assert criteria == front + [last];
    }
  }

  lemma {:induction false} RequirementsShown(rs: seq<Requirement>, accepted: set<(string, string)>, e: Evidence)
    ensures e in RequirementEvidence(rs, accepted) <==>
            e.AcceptanceVerified? && (e.owner, e.key) in accepted && exists r :: r in rs && r.id == e.owner && SomeCriterion(r.criteria, e.key)
  {
    if rs != [] {
      var front, last := rs[..|rs| - 1], rs[|rs| - 1];
      RequirementsShown(front, accepted, e);
      CriteriaShown(last.id, last.criteria, accepted, e);
      hide CriteriaEvidence, SomeCriterion;
      assert rs == front + [last];
    }
  }

  lemma {:induction false} DeliveriesShown(rs: seq<Requirement>, assignments: seq<seq<string>>, e: Evidence)
    requires |rs| <= |assignments|
    ensures e in DeliveryEvidence(rs, assignments) <==>
            exists i :: 0 <= i < |rs| && |assignments[i]| >= rs[i].quantity && e == DeliverableVerified(rs[i].id, rs[i].quantity)
  {
    if rs != [] {
      var last := |rs| - 1;
      DeliveriesShown(rs[..last], assignments, e);
      assert forall i :: 0 <= i < last ==> rs[..last][i] == rs[i];
    }
  }

  lemma ArtifactsShown(d: RunFacts, e: Evidence)
    ensures e in ArtifactEvidence(d) <==> e.DeliverableVerified? && Shows(d, e)
  {
    AssignLength(AvailablePaths(d.files, d.verifiedPaths), d.requirements);
    DeliveriesShown(d.requirements, Assignments(d), e);
    hide DeliveryEvidence, Assign, AvailablePaths;
  }

  /** The verifier gives a piece of evidence exactly when what it says is so; the last one only for a goal that is met. */
  lemma EvidenceGivenExactly(d: RunFacts, e: Evidence)
    ensures e in EvidenceOf(d) <==> Shows(d, e)
  {
    ArtifactsShown(d, e);
    CriteriaShown("", d.criteria, d.acceptance, e);
    RequirementsShown(d.requirements, d.acceptance, e);
    TasksFinishedMeaning(d.plan);
    hide ArtifactEvidence, CriteriaEvidence, RequirementEvidence, SomeCriterion, CopyRecords, TasksFinished;
  }

  lemma TasksFinishedMeaning(plan: seq<TaskState>)
    ensures TasksFinished(plan) <==> forall t :: t in plan ==> t.status == Succeeded || t.status == Skipped
  {
    assert forall i :: 0 <= i < |plan| ==> plan[i] in plan;
  }

  // The decision.

  /**
   * What is decided, from what is lacking and how the run stands. A cancelled or timed out run fails; an unsupported effect
   * blocks; what is lacking fails, unless no retry can help; otherwise the run's own failure counts.
   */
  lemma DecisionSays(d: RunFacts, answer: string)
    ensures var decision := DecisionFor(d, Gaps(d, answer));
            if d.terminalStatus == Cancelled || d.terminalStatus == TimedOut then
              decision.status == GoalFailed && decision.blocker == StatusCode(d.terminalStatus)
            else if CopyRecords(d.unsupportedEffects) != [] then decision.status == GoalBlocked && decision.blocker == UnsupportedCapability
            else if Lacking(d, answer) then
              && decision.status ==
                 (if d.failureCode in {ResearchToolUnavailable, UnsupportedCapability} || Lacks(d, answer, NoFreshEvidence)
                  then GoalBlocked else GoalFailed)
              && decision.blocker == if d.failureCode == NoCode then GoalIncomplete else d.failureCode
            else if d.terminalStatus == FailedTerminal || d.terminalStatus == Blocked || d.failureCode != NoCode then
              && decision.status == (if d.terminalStatus == Blocked then GoalBlocked else GoalFailed)
              && decision.blocker == if d.failureCode == NoCode then StatusCode(d.terminalStatus) else d.failureCode
            else decision.status == Complete && decision.blocker == NoCode
  {
    LackingMeaning(d, answer);
    GapListedExactly(d, answer, NoFreshEvidence);
    hide Gaps, Lacks, Lacking, EvidenceOf, CopyRecords, Distinct;
  }

  ghost predicate Lacking(d: RunFacts, answer: string) { exists g :: Lacks(d, answer, g) }

  lemma LackingMeaning(d: RunFacts, answer: string)
    ensures Gaps(d, answer) != [] <==> Lacking(d, answer)
  {
    if Gaps(d, answer) != [] {
      var g := Gaps(d, answer)[0];
      GapListedExactly(d, answer, g);
      assert Lacks(d, answer, g);
    }
    if g :| Lacks(d, answer, g) {
      GapListedExactly(d, answer, g);
    }
  }

  /** The decision names every gap, each once, and beside them only why a run without gaps is not completed. */
  lemma DecisionNames(d: RunFacts, answer: string, g: Gap)
    ensures var decision := DecisionFor(d, Gaps(d, answer));
            && NoDuplicates(decision.missing)
            && (g in decision.missing <==>
                if Lacking(d, answer) then Lacks(d, answer, g)
                else if d.terminalStatus == Cancelled || d.terminalStatus == TimedOut then g == StatusGap(d.terminalStatus)
                else if CopyRecords(d.unsupportedEffects) != [] then g == Unsupported
                else if d.terminalStatus == FailedTerminal || d.terminalStatus == Blocked || d.failureCode != NoCode then g == FailureGap(d.failureCode)
                else false)
  {
    var gaps := Gaps(d, answer);
    LackingMeaning(d, answer);
    GapListedExactly(d, answer, g);
    DistinctMeaning(gaps);
    DistinctMeaning(OrElse(gaps, StatusGap(d.terminalStatus)));
    DistinctMeaning(OrElse(gaps, Unsupported));
    hide Gaps, Lacks, Lacking, EvidenceOf, CopyRecords, Distinct;
  }

  /** The evidence decided on is what was given, and that the gate was passed exactly for a goal that is met. */
  lemma DecisionShows(d: RunFacts, answer: string, e: Evidence)
    ensures e in DecisionFor(d, Gaps(d, answer)).evidence <==> Shows(d, e) || (e == GatePassed && GoalMet(d, answer))
  {
    EvidenceGivenExactly(d, e);
    GapsMeaning(d, answer);
    hide Gaps, EvidenceOf, CopyRecords, Distinct, DemandsMet;
  }

  lemma SpecialLacks(d: RunFacts, answer: string)
    ensures Lacks(d, answer, NoFreshEvidence) <==> (d.freshnessRequired || d.sourceGroundingRequired) && !Fresh(d)
    ensures Lacks(d, answer, NoUserOutput) <==> d.answerRequired && Strip(answer) == ""
    ensures Lacks(d, answer, NoFreshEvidence) || Lacks(d, answer, NoUserOutput) ==> Lacking(d, answer)
    ensures GoalMet(d, answer) <==> !Lacking(d, answer) && NothingFailed(d)
  {
    LackingMeaning(d, answer);
    GapsMeaning(d, answer);
    hide Gaps, DemandsMet, Fresh, Strip, NothingFailed;
  }

  /** A run is published without a code exactly when its goal is met and no other ending is on record. */
  lemma NoCodeExactly(d: RunFacts, answer: string)
    ensures PublishedCode(d, answer) == NoCode <==> GoalMet(d, answer) && (d.terminalStatus == Unset || d.terminalStatus == Completed)
  {
    VerifierCompletesExactly(d, answer);
    SpecialLacks(d, answer);
    hide DecisionFor, Gaps, Lacks, Lacking, GoalMet, Fresh, Strip, CopyRecords;
  }

  /**
   * The code a run is published with. A missing source and a missing answer come before the run's own code; a run without
   * a code of its own is told by its status, an unsupported effect, or as an incomplete goal.
   */
  lemma PublishedCodeSays(d: RunFacts, answer: string)
    ensures PublishedCode(d, answer) ==
            if Lacks(d, answer, NoFreshEvidence) then ResearchToolUnavailable
            else if Lacks(d, answer, NoUserOutput) then MissingUserOutput
            else if d.failureCode != NoCode then d.failureCode
            else if d.terminalStatus == Cancelled || d.terminalStatus == TimedOut then StatusCode(d.terminalStatus)
            else if CopyRecords(d.unsupportedEffects) != [] then UnsupportedCapability
            else if Lacking(d, answer) then GoalIncomplete
            else if d.terminalStatus == FailedTerminal || d.terminalStatus == Blocked then StatusCode(d.terminalStatus)
            else if d.terminalStatus == Unset || d.terminalStatus == Completed then NoCode
            else RuntimeIncomplete
  {
    DecisionSays(d, answer);
    SpecialLacks(d, answer);
    hide DecisionFor, Gaps, Lacks, Lacking, DemandsMet, GoalMet, Fresh, Strip, CopyRecords;
  }
}

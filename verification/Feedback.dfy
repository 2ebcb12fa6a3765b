/** The gaps the tool loop tells the model about, and what their absence means. */
module Feedback {
  import opened Text
  import opened Delivery
  import opened EffectTruth
  import opened GoalGate

  /** The gaps a tool can close: files, outcomes, fresh sources, and the answer itself. */
  predicate IsFedBack(g: Gap) {
    g.Undelivered? || g.OutcomeGap? || g.NoFreshEvidence? || g.NoUserOutput?
  }

  function FedBack(gaps: seq<Gap>): seq<Gap> {
    if gaps == [] then []
    else FedBack(gaps[..|gaps| - 1]) + if IsFedBack(gaps[|gaps| - 1]) then [gaps[|gaps| - 1]] else []
  }

  ghost function FeedbackGaps(d: RunFacts, answer: string): seq<Gap> {
    Distinct(FedBack(DecisionFor(d, Gaps(d, answer)).missing) + OutcomeGaps(UnresolvedOutcomes(d)))
  }

  /** `_verification_gaps`. */
  method VerificationGaps(d: RunFacts, answer: string) returns (gaps: seq<Gap>)
    ensures gaps == FeedbackGaps(d, answer)
  {
    hide DecisionFor, Gaps, UnresolvedOutcomes, Distinct;
    var decision := Verify(d, answer);
    gaps := [];
    for i := 0 to |decision.missing|
      invariant gaps == FedBack(decision.missing[..i])
    {
      assert decision.missing[..i + 1][..i] == decision.missing[..i];
      if IsFedBack(decision.missing[i]) {
        gaps := gaps + [decision.missing[i]];
      }
    }
    assert decision.missing[..|decision.missing|] == decision.missing;
    gaps := Distinct(gaps + OutcomeGaps(UnresolvedOutcomes(d)));
  }

  /** What the run can still be sent back for. It does not ask that there are delivery requirements at all. */
  ghost predicate FeedbackDemandsMet(d: RunFacts, answer: string) {
    && (forall o :: o in d.requestedOutcomes && NeedsEvidence(o) ==> o in VerifiedOutcomes(d.executionEvidence))
    && (d.artifactRequired ==> Delivered(Assignments(d), d.requirements))
    && (d.answerRequired ==> Strip(answer) != "")
    && (d.freshnessRequired || d.sourceGroundingRequired ==> Fresh(d))
  }

  lemma {:induction false} FedBackMeaning(gaps: seq<Gap>)
    ensures forall g :: g in FedBack(gaps) <==> g in gaps && IsFedBack(g)
  {
    if gaps != [] {
      FedBackMeaning(gaps[..|gaps| - 1]);
      assert gaps == gaps[..|gaps| - 1] + [gaps[|gaps| - 1]];
    }
  }

  /** The decision names a gap that is fed back exactly when the verifier found one. */
  lemma MissingIsFedBack(d: RunFacts, gaps: seq<Gap>, g: Gap)
    requires IsFedBack(g)
    ensures g in DecisionFor(d, gaps).missing <==> g in gaps
  {
    hide EvidenceOf, CopyRecords;
    DistinctMeaning(gaps);
    DistinctMeaning(OrElse(gaps, StatusGap(d.terminalStatus)));
    DistinctMeaning(OrElse(gaps, Unsupported));
  }

  lemma WorkIsFedBack(d: RunFacts, g: Gap)
    requires IsFedBack(g)
    ensures g in WorkGaps(d) <==> g in OutcomeGaps(UnresolvedOutcomes(d))
  {
    hide UnresolvedEffects, UnresolvedOutcomes, TasksFinished;
  }

  /** A gap that is fed back is an outcome, a delivery, the output or the freshness gap. */
  lemma GapIsFedBack(d: RunFacts, answer: string, g: Gap)
    requires IsFedBack(g)
    ensures g in Gaps(d, answer) <==>
            g in OutcomeGaps(UnresolvedOutcomes(d)) || g in ArtifactGaps(d) || g in OutputGaps(d, answer) || g in FreshnessGaps(d)
  {
    hide WorkGaps, ArtifactGaps, AcceptanceGaps, OutputGaps, FreshnessGaps, OutcomeGaps, UnresolvedOutcomes;
    FiveParts(WorkGaps(d), ArtifactGaps(d), AcceptanceGaps(d), OutputGaps(d, answer), FreshnessGaps(d), g);
    WorkIsFedBack(d, g);
    AcceptanceIsNotFedBack(d, g);
  }

  lemma AcceptanceIsNotFedBack(d: RunFacts, g: Gap)
    requires IsFedBack(g)
    ensures g !in AcceptanceGaps(d)
  {
    CriteriaGapsMeaning("", d.criteria, d.acceptance);
    RequirementGapsMeaning(d.requirements, d.acceptance);
  }

  lemma DeliveriesFedBack(d: RunFacts)
    ensures (forall g :: g in ArtifactGaps(d) ==> !IsFedBack(g)) <==> d.artifactRequired ==> Delivered(Assignments(d), d.requirements)
  {
    hide AvailablePaths, Assign, Delivered;
    AssignLength(AvailablePaths(d.files, d.verifiedPaths), d.requirements);
    DeliveryGapsMeaning(d.requirements, Assignments(d));
    FilledIsDelivered(d);
    var gaps := DeliveryGaps(d.requirements, Assignments(d));
    if d.artifactRequired && gaps != [] { assert gaps[0] in ArtifactGaps(d); }
  }

  lemma FilledIsDelivered(d: RunFacts)
    ensures |Assignments(d)| == |d.requirements|
    ensures (forall i :: 0 <= i < |d.requirements| ==> |Assignments(d)[i]| >= d.requirements[i].quantity) <==>
            Delivered(Assignments(d), d.requirements)
  {
    var available := AvailablePaths(d.files, d.verifiedPaths);
    AssignLength(available, d.requirements);
    DistinctMeaning(EligiblePaths(d.files, d.verifiedPaths));
    AssignIsGreedy(available, d.requirements);
    GreedyIsDisjoint(Elements(available), d.requirements, Sets(Assignments(d)));
  }

  lemma OutcomesFedBack(d: RunFacts)
    ensures UnresolvedOutcomes(d) == [] <==>
            forall o :: o in d.requestedOutcomes && NeedsEvidence(o) ==> o in VerifiedOutcomes(d.executionEvidence)
  {
    hide VerifiedOutcomes, Unevidenced, Distinct;
    DistinctMeaning(d.requestedOutcomes);
    UnevidencedMeaning(Distinct(d.requestedOutcomes), VerifiedOutcomes(d.executionEvidence));
  }

  /** Nothing is fed back exactly when every demand a tool or the answer can meet is met. */
  lemma FeedbackGapsMeaning(d: RunFacts, answer: string)
    ensures FeedbackGaps(d, answer) == [] <==> FeedbackDemandsMet(d, answer)
  {
    hide DecisionFor, Gaps, ArtifactGaps, UnresolvedOutcomes, VerifiedOutcomes, Fresh, Delivered, Assignments, Distinct, FedBack;
    var missing := DecisionFor(d, Gaps(d, answer)).missing;
    var outcomes := OutcomeGaps(UnresolvedOutcomes(d));
    DistinctMeaning(FedBack(missing) + outcomes);
    FedBackMeaning(missing);
    OutcomesFedBack(d);
    DeliveriesFedBack(d);
    forall g | IsFedBack(g) ensures g in missing <==>
                  g in outcomes || g in ArtifactGaps(d) || g in OutputGaps(d, answer) || g in FreshnessGaps(d) {
      MissingIsFedBack(d, Gaps(d, answer), g);
      GapIsFedBack(d, answer, g);
    }
    assert UnresolvedOutcomes(d) != [] ==> outcomes[0] in FedBack(missing) + outcomes;
    assert d.answerRequired && Strip(answer) == "" ==> NoUserOutput in OutputGaps(d, answer);
    assert (d.freshnessRequired || d.sourceGroundingRequired) && !Fresh(d) ==> NoFreshEvidence in FreshnessGaps(d);
    if FeedbackGaps(d, answer) == [] {
      NothingIn(Distinct(FedBack(missing) + outcomes));
      assert forall g :: g in FedBack(missing) ==> g in FedBack(missing) + outcomes;
    } else {
      var g := FeedbackGaps(d, answer)[0];
      assert g in FedBack(missing) + outcomes;
    }
  }

  lemma NothingIn<T>(s: seq<T>)
    ensures s == [] <==> forall x :: x !in s
  {
    if s != [] { assert s[0] in s; }
  }
}

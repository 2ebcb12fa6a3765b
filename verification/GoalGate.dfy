/** The whole-goal verifier and the published run evidence: what COMPLETED means. */
module GoalGate {
  import opened Text
  import opened Delivery
  import opened EffectTruth

  datatype GoalStatus = Active | Complete | GoalBlocked | GoalFailed | WaitingUser

  /** One thing the goal still lacks. */
  datatype Gap =
    | FailedTask
    | PendingTask
    | EffectGap(effectId: string)
    | OutcomeGap(outcome: Outcome)
    | NoRequirements
    | Undelivered(id: string, quantity: nat)
    | Unaccepted(owner: string, key: string)
    | NoUserOutput
    | NoFreshEvidence
    | StatusGap(status: RunStatus)
    | Unsupported
    | FailureGap(code: Code)

  datatype Evidence =
    | EffectsVerified
    | ExecutionEvidenced
    | TasksDone
    | DeliverableVerified(id: string, quantity: nat)
    | AcceptanceVerified(owner: string, key: string)
    | GatePassed

  datatype Decision = Decision(status: GoalStatus, evidence: seq<Evidence>, missing: seq<Gap>, blocker: Code) {
    predicate CanComplete() { status == Complete && missing == [] }
  }

  predicate Verifiable(c: Criterion) { c.kind != "unverifiable" }

  function Key(c: Criterion): string {
    var payload := if c.text != "" then c.text else c.description;
    if payload != "" then c.kind + ":" + payload else c.kind
  }

  // Fresh evidence.

  predicate FromSource(o: Observation) { o.succeeded && o.fromSourceTool }

  predicate HasUrl(o: Observation) { exists i | 0 <= i < |o.sources| :: Strip(o.sources[i]) != "" }

  function Observations(plan: seq<TaskState>): seq<Observation> {
    if plan == [] then [] else Observations(plan[..|plan| - 1]) + plan[|plan| - 1].observations
  }

  /** Some successful source observation names a URL, and none before it went without. */
  ghost predicate Fresh(d: RunFacts) {
    d.freshEvidence || exists k :: FirstFromSource(Observations(d.plan), k) && HasUrl(Observations(d.plan)[k])
  }

  ghost predicate FirstFromSource(observations: seq<Observation>, k: int) {
    0 <= k < |observations| && FromSource(observations[k]) && NoneFromSource(observations[..k])
  }

  predicate NoneFromSource(observations: seq<Observation>) {
    forall i :: 0 <= i < |observations| ==> !FromSource(observations[i])
  }

  lemma ObservationsStep(plan: seq<TaskState>, i: nat)
    requires i < |plan|
    ensures Observations(plan[..i + 1]) == Observations(plan[..i]) + plan[i].observations
  {
    assert plan[..i + 1][..i] == plan[..i] && plan[..i + 1][i] == plan[i];
  }

  lemma {:induction false} ObservationsPrefix(plan: seq<TaskState>, i: nat)
    requires i <= |plan|
    ensures Observations(plan[..i]) <= Observations(plan)
    decreases |plan|
  {
    if i == |plan| {
      assert plan[..i] == plan;
    } else {
      var front := plan[..|plan| - 1];
      ObservationsPrefix(front, i);
      assert front[..i] == plan[..i];
    }
  }

  /** A later, well-sourced observation does not repair a first one without URLs. */
  lemma FirstSourceDecides(d: RunFacts, k: nat)
    requires FirstFromSource(Observations(d.plan), k)
    ensures Fresh(d) <==> d.freshEvidence || HasUrl(Observations(d.plan)[k])
  {
    var all := Observations(d.plan);
    forall j | FirstFromSource(all, j) ensures j == k {
    }
  }

  lemma FoundAt(d: RunFacts, i: nat, j: nat)
    requires i < |d.plan| && NoneFromSource(Observations(d.plan[..i]))
    requires j < |d.plan[i].observations| && NoneFromSource(d.plan[i].observations[..j]) && FromSource(d.plan[i].observations[j])
    ensures Fresh(d) <==> d.freshEvidence || HasUrl(d.plan[i].observations[j])
  {
    var all, before, observations := Observations(d.plan), Observations(d.plan[..i]), d.plan[i].observations;
    ObservationsStep(d.plan, i);
    ObservationsPrefix(d.plan, i + 1);
    hide Observations, HasUrl;
    var k := |before| + j;
    assert all[k] == observations[j];
    assert all[..k] == before + observations[..j];
    FirstSourceDecides(d, k);
  }

  /** The position of the first source observation, or the length if there is none. */
  method FindSource(observations: seq<Observation>) returns (j: nat)
    ensures j <= |observations| && NoneFromSource(observations[..j])
    ensures j < |observations| ==> FromSource(observations[j])
  {
    for i := 0 to |observations|
      invariant NoneFromSource(observations[..i])
    {
      if observations[i].succeeded && observations[i].fromSourceTool {
        return i;
      }
    }
    return |observations|;
  }

  /** Scans the observations in order; the first one from a source tool decides. */
  method HasFreshEvidence(d: RunFacts) returns (sourced: bool)
    ensures sourced <==> Fresh(d)
  {
    if d.freshEvidence {
      return true;
    }
    assert NoneFromSource(Observations(d.plan[..0]));
    hide Observations, HasUrl;
    for i := 0 to |d.plan|
      invariant NoneFromSource(Observations(d.plan[..i]))
    {
      var observations := d.plan[i].observations;
      var j := FindSource(observations);
      if j < |observations| {
        FoundAt(d, i, j);
        return HasUrl(observations[j]);
      }
      ObservationsStep(d.plan, i);
      assert observations[..j] == observations;
    }
    assert d.plan[..|d.plan|] == d.plan;
    return false;
  }

  // What a goal demands, order-free.

  predicate TasksFinished(plan: seq<TaskState>) {
    forall i :: 0 <= i < |plan| ==> plan[i].status == Succeeded || plan[i].status == Skipped
  }

  function Assignments(d: RunFacts): seq<seq<string>> {
    Assign(AvailablePaths(d.files, d.verifiedPaths), d.requirements)
  }

  predicate Accepted(owner: string, criteria: seq<Criterion>, accepted: set<(string, string)>) {
    forall c :: c in criteria && Verifiable(c) ==> (owner, Key(c)) in accepted
  }

  ghost predicate DemandsMet(d: RunFacts, answer: string) {
    && TasksFinished(d.plan)
    && (forall r :: r in CopyRecords(d.requiredEffects) ==> r.effectId.GetOr("") in VerifiedIds(d.verifiedEffects))
    && (forall o :: o in d.requestedOutcomes && NeedsEvidence(o) ==> o in VerifiedOutcomes(d.executionEvidence))
    && (d.artifactRequired ==> d.requirements != [] && Delivered(Assignments(d), d.requirements))
    && Accepted("", d.criteria, d.acceptance)
    && (forall r :: r in d.requirements ==> Accepted(r.id, r.criteria, d.acceptance))
    && (d.answerRequired ==> Strip(answer) != "")
    && (d.freshnessRequired || d.sourceGroundingRequired ==> Fresh(d))
  }

  /** Everything demanded is there, nothing is unsupported, and the runtime reports no failure. */
  ghost predicate GoalMet(d: RunFacts, answer: string) {
    DemandsMet(d, answer) && NothingFailed(d)
  }

  predicate NothingFailed(d: RunFacts) {
    && CopyRecords(d.unsupportedEffects) == []
    && d.terminalStatus != Cancelled && d.terminalStatus != TimedOut
    && d.terminalStatus != FailedTerminal && d.terminalStatus != Blocked
    && d.failureCode == NoCode
  }

  // What the verifier reports missing, in the order it looks.

  function TaskGaps(plan: seq<TaskState>): seq<Gap> {
    if exists i | 0 <= i < |plan| :: plan[i].status == Failed then [FailedTask]
    else if !TasksFinished(plan) then [PendingTask]
    else []
  }

  function EffectGaps(records: seq<Record>): seq<Gap> {
    seq(|records|, i requires 0 <= i < |records| => EffectGap(records[i].effectId.GetOr("unknown")))
  }

  function OutcomeGaps(outcomes: seq<Outcome>): seq<Gap> {
    seq(|outcomes|, i requires 0 <= i < |outcomes| => OutcomeGap(outcomes[i]))
  }

  function DeliveryGaps(rs: seq<Requirement>, assignments: seq<seq<string>>): seq<Gap>
    requires |rs| <= |assignments|
  {
    if rs == [] then []
    else
      var last := |rs| - 1;
      DeliveryGaps(rs[..last], assignments)
      + if |assignments[last]| < rs[last].quantity then [Undelivered(rs[last].id, rs[last].quantity)] else []
  }

  function DeliveryEvidence(rs: seq<Requirement>, assignments: seq<seq<string>>): seq<Evidence>
    requires |rs| <= |assignments|
  {
    if rs == [] then []
    else
      var last := |rs| - 1;
      DeliveryEvidence(rs[..last], assignments)
      + if |assignments[last]| < rs[last].quantity then [] else [DeliverableVerified(rs[last].id, rs[last].quantity)]
  }

  function CriteriaGaps(owner: string, criteria: seq<Criterion>, accepted: set<(string, string)>): seq<Gap> {
    if criteria == [] then []
    else
      var c := criteria[|criteria| - 1];
      CriteriaGaps(owner, criteria[..|criteria| - 1], accepted)
      + if Verifiable(c) && (owner, Key(c)) !in accepted then [Unaccepted(owner, Key(c))] else []
  }

  function CriteriaEvidence(owner: string, criteria: seq<Criterion>, accepted: set<(string, string)>): seq<Evidence> {
    if criteria == [] then []
    else
      var c := criteria[|criteria| - 1];
      CriteriaEvidence(owner, criteria[..|criteria| - 1], accepted)
      + if Verifiable(c) && (owner, Key(c)) in accepted then [AcceptanceVerified(owner, Key(c))] else []
  }

  function RequirementGaps(rs: seq<Requirement>, accepted: set<(string, string)>): seq<Gap> {
    if rs == [] then []
    else RequirementGaps(rs[..|rs| - 1], accepted) + CriteriaGaps(rs[|rs| - 1].id, rs[|rs| - 1].criteria, accepted)
  }

  function RequirementEvidence(rs: seq<Requirement>, accepted: set<(string, string)>): seq<Evidence> {
    if rs == [] then []
    else RequirementEvidence(rs[..|rs| - 1], accepted) + CriteriaEvidence(rs[|rs| - 1].id, rs[|rs| - 1].criteria, accepted)
  }

  function ArtifactGaps(d: RunFacts): seq<Gap> {
    AssignLength(AvailablePaths(d.files, d.verifiedPaths), d.requirements);
    if !d.artifactRequired then []
    else (if d.requirements == [] then [NoRequirements] else []) + DeliveryGaps(d.requirements, Assignments(d))
  }

  function ArtifactEvidence(d: RunFacts): seq<Evidence> {
    AssignLength(AvailablePaths(d.files, d.verifiedPaths), d.requirements);
    if d.artifactRequired then DeliveryEvidence(d.requirements, Assignments(d)) else []
  }

  function AcceptanceGaps(d: RunFacts): seq<Gap> {
    CriteriaGaps("", d.criteria, d.acceptance) + RequirementGaps(d.requirements, d.acceptance)
  }

  function OutputGaps(d: RunFacts, answer: string): seq<Gap> {
    if d.answerRequired && Strip(answer) == "" then [NoUserOutput] else []
  }

  ghost function FreshnessGaps(d: RunFacts): seq<Gap> {
    if (d.freshnessRequired || d.sourceGroundingRequired) && !Fresh(d) then [NoFreshEvidence] else []
  }

  function WorkGaps(d: RunFacts): seq<Gap> {
    TaskGaps(d.plan) + EffectGaps(UnresolvedEffects(d)) + OutcomeGaps(UnresolvedOutcomes(d))
  }

  ghost function Gaps(d: RunFacts, answer: string): seq<Gap> {
    WorkGaps(d) + ArtifactGaps(d) + AcceptanceGaps(d) + OutputGaps(d, answer) + FreshnessGaps(d)
  }

  function WorkEvidence(d: RunFacts): seq<Evidence> {
    (if CopyRecords(d.verifiedEffects) != [] then [EffectsVerified] else [])
    + (if CopyRecords(d.executionEvidence) != [] then [ExecutionEvidenced] else [])
    + if d.plan != [] && TasksFinished(d.plan) then [TasksDone] else []
  }

  function EvidenceOf(d: RunFacts): seq<Evidence> {
    WorkEvidence(d) + ArtifactEvidence(d)
    + (CriteriaEvidence("", d.criteria, d.acceptance) + RequirementEvidence(d.requirements, d.acceptance))
  }

  function OrElse<T>(s: seq<T>, x: T): seq<T> { if s == [] then [x] else s }

  /** The decision the gaps lead to. */
  function DecisionFor(d: RunFacts, gaps: seq<Gap>): Decision {
    var evidence := EvidenceOf(d);
    if d.terminalStatus == Cancelled || d.terminalStatus == TimedOut then
      Decision(GoalFailed, evidence, Distinct(OrElse(gaps, StatusGap(d.terminalStatus))), StatusCode(d.terminalStatus))
    else if CopyRecords(d.unsupportedEffects) != [] then
      Decision(GoalBlocked, evidence, Distinct(OrElse(gaps, Unsupported)), UnsupportedCapability)
    else if gaps != [] then
      Decision(
        if d.failureCode == ResearchToolUnavailable || d.failureCode == UnsupportedCapability || NoFreshEvidence in gaps
        then GoalBlocked else GoalFailed,
        evidence, Distinct(gaps), if d.failureCode != NoCode then d.failureCode else GoalIncomplete)
    else if d.terminalStatus == FailedTerminal || d.terminalStatus == Blocked || d.failureCode != NoCode then
      Decision(if d.terminalStatus == Blocked then GoalBlocked else GoalFailed, evidence, [FailureGap(d.failureCode)],
               if d.failureCode != NoCode then d.failureCode else StatusCode(d.terminalStatus))
    else Decision(Complete, evidence + [GatePassed], [], NoCode)
  }

  /** `verify`: collects evidence and gaps side by side, then decides. */
  method Verify(d: RunFacts, answer: string) returns (decision: Decision)
    ensures decision == DecisionFor(d, Gaps(d, answer))
  {
    var evidence, missing := WorkEvidence(d), WorkGaps(d);
    if d.artifactRequired {
      var delivered, undelivered := CheckDeliverables(d);
      evidence, missing := evidence + delivered, missing + undelivered;
    }
    assert evidence == WorkEvidence(d) + ArtifactEvidence(d) && missing == WorkGaps(d) + ArtifactGaps(d);
    var accepted, unaccepted := CheckAcceptance(d);
    evidence, missing := evidence + accepted, missing + unaccepted;
    if d.answerRequired && Strip(answer) == "" {
      missing := missing + [NoUserOutput];
    }
    assert missing == WorkGaps(d) + ArtifactGaps(d) + AcceptanceGaps(d) + OutputGaps(d, answer);
    if d.freshnessRequired || d.sourceGroundingRequired {
      var sourced := HasFreshEvidence(d);
      if !sourced {
        missing := missing + [NoFreshEvidence];
      }
    }
    assert missing == Gaps(d, answer) && evidence == EvidenceOf(d);
    if d.terminalStatus == Cancelled || d.terminalStatus == TimedOut {
      return Decision(GoalFailed, evidence, Distinct(OrElse(missing, StatusGap(d.terminalStatus))), StatusCode(d.terminalStatus));
    }
    if CopyRecords(d.unsupportedEffects) != [] {
      return Decision(GoalBlocked, evidence, Distinct(OrElse(missing, Unsupported)), UnsupportedCapability);
    }
    if missing != [] {
      var blocked := d.failureCode == ResearchToolUnavailable || d.failureCode == UnsupportedCapability || NoFreshEvidence in missing;
      return Decision(if blocked then GoalBlocked else GoalFailed, evidence, Distinct(missing),
                      if d.failureCode != NoCode then d.failureCode else GoalIncomplete);
    }
    if d.terminalStatus == FailedTerminal || d.terminalStatus == Blocked || d.failureCode != NoCode {
      return Decision(if d.terminalStatus == Blocked then GoalBlocked else GoalFailed, evidence, [FailureGap(d.failureCode)],
                      if d.failureCode != NoCode then d.failureCode else StatusCode(d.terminalStatus));
    }
    return Decision(Complete, evidence + [GatePassed], [], NoCode);
  }

  method CheckDeliverables(d: RunFacts) returns (evidence: seq<Evidence>, missing: seq<Gap>)
    requires d.artifactRequired
    ensures evidence == ArtifactEvidence(d) && missing == ArtifactGaps(d)
  {
    var rs := d.requirements;
    ghost var head: seq<Gap> := if rs == [] then [NoRequirements] else [];
    evidence, missing := [], if rs == [] then [NoRequirements] else [];
    var assignments, _ := DeliveryPaths(rs, d.files, d.verifiedPaths);
    AssignLength(AvailablePaths(d.files, d.verifiedPaths), rs);
    for i := 0 to |rs|
      invariant evidence == DeliveryEvidence(rs[..i], assignments)
      invariant missing == head + DeliveryGaps(rs[..i], assignments)
    {
      assert rs[..i + 1][..i] == rs[..i];
      if |assignments[i]| < rs[i].quantity {
        missing := missing + [Undelivered(rs[i].id, rs[i].quantity)];
      } else {
        evidence := evidence + [DeliverableVerified(rs[i].id, rs[i].quantity)];
      }
    }
    assert rs[..|rs|] == rs;
  }

  method CheckCriteria(owner: string, criteria: seq<Criterion>, accepted: set<(string, string)>)
    returns (evidence: seq<Evidence>, missing: seq<Gap>)
    ensures evidence == CriteriaEvidence(owner, criteria, accepted) && missing == CriteriaGaps(owner, criteria, accepted)
  {
    evidence, missing := [], [];
    for i := 0 to |criteria|
      invariant evidence == CriteriaEvidence(owner, criteria[..i], accepted)
      invariant missing == CriteriaGaps(owner, criteria[..i], accepted)
    {
      assert criteria[..i + 1][..i] == criteria[..i];
      var key := Key(criteria[i]);
      if Verifiable(criteria[i]) {
        if (owner, key) !in accepted {
          missing := missing + [Unaccepted(owner, key)];
        } else {
          evidence := evidence + [AcceptanceVerified(owner, key)];
        }
      }
    }
    assert criteria[..|criteria|] == criteria;
  }

  method CheckAcceptance(d: RunFacts) returns (evidence: seq<Evidence>, missing: seq<Gap>)
    ensures evidence == CriteriaEvidence("", d.criteria, d.acceptance) + RequirementEvidence(d.requirements, d.acceptance)
    ensures missing == AcceptanceGaps(d)
  {
    var rs := d.requirements;
    ghost var evidenceHead, gapHead := CriteriaEvidence("", d.criteria, d.acceptance), CriteriaGaps("", d.criteria, d.acceptance);
    evidence, missing := CheckCriteria("", d.criteria, d.acceptance);
    for i := 0 to |rs|
      invariant evidence == evidenceHead + RequirementEvidence(rs[..i], d.acceptance)
      invariant missing == gapHead + RequirementGaps(rs[..i], d.acceptance)
    {
      assert rs[..i + 1][..i] == rs[..i];
      var found, lacking := CheckCriteria(rs[i].id, rs[i].criteria, d.acceptance);
      evidence, missing := evidence + found, missing + lacking;
    }
    assert rs[..|rs|] == rs;
  }

  // Nothing is missing exactly when every demand is met.

  lemma {:induction false} DeliveryGapsMeaning(rs: seq<Requirement>, assignments: seq<seq<string>>)
    requires |rs| <= |assignments|
    ensures DeliveryGaps(rs, assignments) == [] <==> forall i :: 0 <= i < |rs| ==> |assignments[i]| >= rs[i].quantity
    ensures forall g :: g in DeliveryGaps(rs, assignments) ==> g.Undelivered?
  {
    if rs != [] { DeliveryGapsMeaning(rs[..|rs| - 1], assignments); }
  }

  lemma {:induction false} CriteriaGapsMeaning(owner: string, criteria: seq<Criterion>, accepted: set<(string, string)>)
    ensures CriteriaGaps(owner, criteria, accepted) == [] <==> Accepted(owner, criteria, accepted)
    ensures forall g :: g in CriteriaGaps(owner, criteria, accepted) ==> g.Unaccepted?
  {
    if criteria != [] {
      CriteriaGapsMeaning(owner, criteria[..|criteria| - 1], accepted);
      assert criteria == criteria[..|criteria| - 1] + [criteria[|criteria| - 1]];
    }
  }

  lemma {:induction false} RequirementGapsMeaning(rs: seq<Requirement>, accepted: set<(string, string)>)
    ensures RequirementGaps(rs, accepted) == [] <==>
            forall r :: r in rs ==> Accepted(r.id, r.criteria, accepted)
    ensures forall g :: g in RequirementGaps(rs, accepted) ==> g.Unaccepted?
  {
    if rs != [] {
      RequirementGapsMeaning(rs[..|rs| - 1], accepted);
      CriteriaGapsMeaning(rs[|rs| - 1].id, rs[|rs| - 1].criteria, accepted);
      assert rs == rs[..|rs| - 1] + [rs[|rs| - 1]];
    }
  }

  lemma WorkGapsMeaning(d: RunFacts)
    ensures WorkGaps(d) == [] <==>
            && TasksFinished(d.plan)
            && (forall r :: r in CopyRecords(d.requiredEffects) ==> r.effectId.GetOr("") in VerifiedIds(d.verifiedEffects))
            && (forall o :: o in d.requestedOutcomes && NeedsEvidence(o) ==> o in VerifiedOutcomes(d.executionEvidence))
    ensures NoFreshEvidence !in WorkGaps(d) && NoUserOutput !in WorkGaps(d)
  {
    hide CopyRecords, VerifiedIds, VerifiedOutcomes, Unverified, Unevidenced, Distinct;
    UnverifiedMeaning(CopyRecords(d.requiredEffects), VerifiedIds(d.verifiedEffects));
    DistinctMeaning(d.requestedOutcomes);
    UnevidencedMeaning(Distinct(d.requestedOutcomes), VerifiedOutcomes(d.executionEvidence));
  }

  lemma ArtifactGapsMeaning(d: RunFacts)
    ensures ArtifactGaps(d) == [] <==> d.artifactRequired ==> d.requirements != [] && Delivered(Assignments(d), d.requirements)
    ensures NoFreshEvidence !in ArtifactGaps(d) && NoUserOutput !in ArtifactGaps(d)
  {
    var available := AvailablePaths(d.files, d.verifiedPaths);
    AssignLength(available, d.requirements);
    DeliveryGapsMeaning(d.requirements, Assignments(d));
    DistinctMeaning(EligiblePaths(d.files, d.verifiedPaths));
    AssignIsGreedy(available, d.requirements);
    GreedyIsDisjoint(Elements(available), d.requirements, Sets(Assignments(d)));
  }

  lemma AcceptanceGapsMeaning(d: RunFacts)
    ensures AcceptanceGaps(d) == [] <==>
            Accepted("", d.criteria, d.acceptance) && forall r :: r in d.requirements ==> Accepted(r.id, r.criteria, d.acceptance)
    ensures NoFreshEvidence !in AcceptanceGaps(d) && NoUserOutput !in AcceptanceGaps(d)
  {
    CriteriaGapsMeaning("", d.criteria, d.acceptance);
    RequirementGapsMeaning(d.requirements, d.acceptance);
  }

  lemma FiveParts<T>(a: seq<T>, b: seq<T>, c: seq<T>, d: seq<T>, e: seq<T>, x: T)
    ensures a + b + c + d + e == [] <==> a == [] && b == [] && c == [] && d == [] && e == []
    ensures x in a + b + c + d + e <==> x in a || x in b || x in c || x in d || x in e
  {
  }

  /** The two special gaps are listed exactly when they apply. */
  lemma SpecialGaps(d: RunFacts, answer: string)
    ensures NoFreshEvidence in Gaps(d, answer) <==> (d.freshnessRequired || d.sourceGroundingRequired) && !Fresh(d)
    ensures NoUserOutput in Gaps(d, answer) <==> d.answerRequired && Strip(answer) == ""
  {
    WorkGapsMeaning(d);
    ArtifactGapsMeaning(d);
    AcceptanceGapsMeaning(d);
    FiveParts(WorkGaps(d), ArtifactGaps(d), AcceptanceGaps(d), OutputGaps(d, answer), FreshnessGaps(d), NoFreshEvidence);
    FiveParts(WorkGaps(d), ArtifactGaps(d), AcceptanceGaps(d), OutputGaps(d, answer), FreshnessGaps(d), NoUserOutput);
  }

  /** The list of gaps is empty exactly when all demands are met. */
  lemma GapsMeaning(d: RunFacts, answer: string)
    ensures Gaps(d, answer) == [] <==> DemandsMet(d, answer)
  {
    WorkGapsMeaning(d);
    ArtifactGapsMeaning(d);
    AcceptanceGapsMeaning(d);
    FiveParts(WorkGaps(d), ArtifactGaps(d), AcceptanceGaps(d), OutputGaps(d, answer), FreshnessGaps(d), NoUserOutput);
  }

  lemma DecisionMeaning(d: RunFacts, gaps: seq<Gap>)
    ensures DecisionFor(d, gaps).CanComplete() <==> gaps == [] && NothingFailed(d)
    ensures DecisionFor(d, gaps).blocker == NoCode <==> gaps == [] && NothingFailed(d)
  {
  }

  /** The verifier completes exactly the goals that are met. */
  lemma VerifierCompletesExactly(d: RunFacts, answer: string)
    ensures DecisionFor(d, Gaps(d, answer)).CanComplete() <==> GoalMet(d, answer)
    ensures DecisionFor(d, Gaps(d, answer)).blocker == NoCode <==> GoalMet(d, answer)
  {
    GapsMeaning(d, answer);
    DecisionMeaning(d, Gaps(d, answer));
  }

  /** The decision still names the two special gaps exactly when they apply. */
  lemma DecisionNamesGaps(d: RunFacts, gaps: seq<Gap>, g: Gap)
    requires g == NoFreshEvidence || g == NoUserOutput
    ensures g in DecisionFor(d, gaps).missing <==> g in gaps
  {
    DistinctMeaning(OrElse(gaps, StatusGap(d.terminalStatus)));
    DistinctMeaning(OrElse(gaps, Unsupported));
    DistinctMeaning(gaps);
  }

  /** The effect gate and the goal verifier agree: a gated run completes exactly when the run did. */
  lemma GateAgreesWithVerifier(d: RunFacts, answer: string)
    ensures GoalMet(Gated(d), answer) <==> GoalMet(d, answer)
    ensures GoalMet(d, answer) ==> !Unresolved(d)
  {
    hide CopyRecords, VerifiedIds, VerifiedOutcomes, Distinct, Delivered, Accepted, TasksFinished, NeedsEvidence, Strip;
    hide VerdictOf;
    var e := Gated(d);
    GateMeaning(d);
    UnverifiedMeaning(CopyRecords(d.requiredEffects), VerifiedIds(d.verifiedEffects));
    DistinctMeaning(d.requestedOutcomes);
    UnevidencedMeaning(Distinct(d.requestedOutcomes), VerifiedOutcomes(d.executionEvidence));
    assert DemandsMet(e, answer) <==> DemandsMet(d, answer);
  }

  // The published evidence.

  datatype Published = Published(terminalStatus: RunStatus, failureCode: Code, outputsVerified: bool)

  /** The code to publish with a decision; only a goal met by a run of another status has none of its own. */
  ghost function PublishedCode(d: RunFacts, answer: string): Code {
    if (d.freshnessRequired || d.sourceGroundingRequired) && !Fresh(d) then ResearchToolUnavailable
    else if d.answerRequired && Strip(answer) == "" then MissingUserOutput
    else if d.failureCode != NoCode then d.failureCode
    else if !GoalMet(d, answer) then DecisionFor(d, Gaps(d, answer)).blocker
    else if d.terminalStatus == Unset || d.terminalStatus == Completed then NoCode
    else RuntimeIncomplete
  }

  function FirstTaskCode(plan: seq<TaskState>): Code {
    if TaskFailure(plan) != NoCode then TaskFailure(plan) else TaskExecutionFailed
  }

  /** Published as blocked rather than failed: an unsupported effect, or a gap no retry of this run can close. */
  ghost predicate PublishedBlocked(d: RunFacts, answer: string) {
    || CopyRecords(d.unsupportedEffects) != []
    || (!DemandsMet(d, answer)
        && (d.failureCode == ResearchToolUnavailable || d.failureCode == UnsupportedCapability
            || ((d.freshnessRequired || d.sourceGroundingRequired) && !Fresh(d))))
  }

  lemma BlockedMeaning(d: RunFacts, answer: string)
    ensures d.terminalStatus == Unset || d.terminalStatus == Completed ==>
              (DecisionFor(d, Gaps(d, answer)).status == GoalBlocked <==> PublishedBlocked(d, answer))
  {
    GapsMeaning(d, answer);
    SpecialGaps(d, answer);
  }

  /** Nothing that would hold a run back is left. */
  predicate Clear(d: RunFacts, answer: string, sourced: bool) {
    && !(exists i | 0 <= i < |d.plan| :: d.plan[i].status == Failed)
    && UnresolvedEffects(d) == [] && UnresolvedOutcomes(d) == [] && CopyRecords(d.unsupportedEffects) == []
    && !LacksSource(d, sourced) && !LacksOutput(d, answer) && d.failureCode == NoCode
  }

  predicate LacksSource(d: RunFacts, sourced: bool) {
    (d.freshnessRequired || d.sourceGroundingRequired) && !sourced
  }

  predicate LacksOutput(d: RunFacts, answer: string) {
    d.answerRequired && Strip(answer) == ""
  }

  /**
   * Reassigns the status and code. After the first two choices the later guards that look
   * for a stale COMPLETED can no longer apply.
   */
  method Settle(d: RunFacts, answer: string, decision: Decision, sourced: bool, ghost met: bool) returns (status: RunStatus, code: Code)
    requires Truthful(d, answer, decision, sourced, met)
    ensures status ==
            if d.terminalStatus != Unset && d.terminalStatus != Completed then d.terminalStatus
            else if decision.CanComplete() then Completed
            else if decision.status == GoalBlocked then Blocked
            else FailedTerminal
    ensures code ==
            if LacksSource(d, sourced) then ResearchToolUnavailable
            else if LacksOutput(d, answer) then MissingUserOutput
            else if d.failureCode != NoCode then d.failureCode
            else if !decision.CanComplete() then decision.blocker
            else if status == Completed then NoCode
            else RuntimeIncomplete
  {
    status, code := d.terminalStatus, d.failureCode;
    var verified := decision.CanComplete();
    if NoFreshEvidence in decision.missing {
      code := ResearchToolUnavailable;
    } else if NoUserOutput in decision.missing {
      code := MissingUserOutput;
    } else if code == NoCode && decision.blocker != NoCode {
      code := decision.blocker;
    }
    if status == Unset {
      status := if verified then Completed else if decision.status == GoalBlocked then Blocked else FailedTerminal;
    } else if status == Completed && !verified {
      status := if decision.status == GoalBlocked then Blocked else FailedTerminal;
    } else if UnresolvedEffects(d) != [] && status == Completed {
      status := if CopyRecords(d.unsupportedEffects) != [] then Blocked else FailedTerminal;
    } else if UnresolvedOutcomes(d) != [] && status == Completed {
      status := FailedTerminal;
    }
    if LacksSource(d, sourced) && (status == Unset || status == Completed) {
      status, code := Blocked, ResearchToolUnavailable;
    }
    if LacksOutput(d, answer) && (status == Unset || status == Completed) {
      status, code := FailedTerminal, MissingUserOutput;
    }
    if code == NoCode && CopyRecords(d.unsupportedEffects) != [] {
      code := UnsupportedCapability;
    }
    if code == NoCode && UnresolvedEffects(d) != [] {
      code := UnverifiedEffect;
    }
    if code == NoCode && UnresolvedOutcomes(d) != [] {
      code := EvidenceMissing;
    }
    if code == NoCode && exists i | 0 <= i < |d.plan| :: d.plan[i].status == Failed {
      code := FirstTaskCode(d.plan);
    }
    if code == NoCode && status != Unset && status != Completed {
      code := RuntimeIncomplete;
    }
  }

  /** What settling relies on: the decision knows whether the goal is met and names what it lacks. */
  ghost predicate Truthful(d: RunFacts, answer: string, decision: Decision, sourced: bool, met: bool) {
    && (decision.CanComplete() <==> met)
    && (decision.blocker == NoCode <==> met)
    && (met ==> Clear(d, answer, sourced))
    && (NoFreshEvidence in decision.missing <==> LacksSource(d, sourced))
    && (NoUserOutput in decision.missing <==> LacksOutput(d, answer))
  }

  lemma MetGoalIsClear(d: RunFacts, answer: string)
    requires GoalMet(d, answer)
    ensures Clear(d, answer, Fresh(d))
  {
    GateAgreesWithVerifier(d, answer);
  }

  lemma DecisionIsTruthful(d: RunFacts, answer: string, decision: Decision)
    requires decision == DecisionFor(d, Gaps(d, answer))
    ensures Truthful(d, answer, decision, Fresh(d), GoalMet(d, answer))
  {
    VerifierCompletesExactly(d, answer);
    GapsMeaning(d, answer);
    SpecialGaps(d, answer);
    DecisionNamesGaps(d, Gaps(d, answer), NoFreshEvidence);
    DecisionNamesGaps(d, Gaps(d, answer), NoUserOutput);
    if GoalMet(d, answer) { MetGoalIsClear(d, answer); }
  }

  /** What is published, and when. */
  ghost predicate PublishedFor(d: RunFacts, answer: string, published: Published, met: bool) {
    var mayComplete := d.terminalStatus == Unset || d.terminalStatus == Completed;
    && published.terminalStatus != Unset
    && (published.outputsVerified <==> met)
    && (published.terminalStatus == Completed <==> mayComplete && met)
    && (published.terminalStatus == Completed <==> published.failureCode == NoCode)
    && (!mayComplete ==> published.terminalStatus == d.terminalStatus)
    && (mayComplete && !met ==> published.terminalStatus == if PublishedBlocked(d, answer) then Blocked else FailedTerminal)
  }

  class Run {
    var facts: RunFacts
    var goalStatus: GoalStatus
    var blocker: Code
    var goalEvidence: seq<Evidence>
    var goalMissing: seq<Gap>

    constructor (facts: RunFacts)
      ensures this.facts == facts && goalStatus == Active && goalEvidence == [] && goalMissing == []
    {
      this.facts := facts;
      goalStatus, blocker, goalEvidence, goalMissing := Active, NoCode, [], [];
    }

    /** `_build_run_evidence`: the last word on a run's status and failure code. */
    method BuildRunEvidence(answer: string) returns (published: Published)
      modifies this
      ensures facts == old(facts)
      ensures Decision(goalStatus, goalEvidence, goalMissing, blocker) == DecisionFor(facts, Gaps(facts, answer))
      ensures PublishedFor(facts, answer, published, GoalMet(facts, answer))
      ensures published.failureCode == PublishedCode(facts, answer)
    {
      var decision;
      decision, published := Publish(facts, answer);
      goalStatus, blocker, goalEvidence, goalMissing := decision.status, decision.blocker, decision.evidence, decision.missing;
    }
  }

  /** The decision on a run's facts, and what to publish with it. */
  method Publish(d: RunFacts, answer: string) returns (decision: Decision, published: Published)
    ensures decision == DecisionFor(d, Gaps(d, answer))
    ensures PublishedFor(d, answer, published, GoalMet(d, answer))
    ensures published.failureCode == PublishedCode(d, answer)
  {
    var sourced := HasFreshEvidence(d);
    decision := Verify(d, answer);
    DecisionIsTruthful(d, answer, decision);
    BlockedMeaning(d, answer);
    ghost var met := GoalMet(d, answer);
    var status, code := Settle(d, answer, decision, sourced, met);
    published := Published(status, code, decision.CanComplete());
  }
}

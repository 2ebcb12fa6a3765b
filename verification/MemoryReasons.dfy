/** What a memory decision says of itself: why evidence was not learned, what a learned one writes, and what the stores answer. */
module MemoryReasons {
  import opened Text
  import opened Memory

  ghost predicate IsSecret(e: Evidence, c: Classifiers) {
    e.secret || c.secretField(e.canonicalKey) || c.secretValue(e.value)
  }

  /** Marked so, told by its key or value, or by a generic key whose text names a sensitive field. */
  ghost predicate IsSensitive(e: Evidence, c: Classifiers) {
    || e.sensitive || c.sensitiveField(e.canonicalKey) || c.sensitiveValue(e.value)
    || (c.genericField(e.canonicalKey) && c.sensitiveField(e.text))
  }

  /** The evidence comes from a kind of source nothing is learned from, and this is why. */
  ghost predicate SourceBars(e: Evidence, c: Classifiers, reason: Reason) {
    match e.provenance.sourceKind
    case UserRequest =>
      if e.memoryAction == Forget || c.asksToForget(e.text) then reason == DeleteOwnedByLifecycle else reason == NoPersistableEvidence
    case AssistantOutput =>
      if e.existing.Some? then reason == ConflictUnconfirmed
      else if e.memoryType == Summary then reason == AssistantOutputNotEvidence
      else reason == AssistantInference
    case RepositoryObservation => reason == RepositoryIndexOutOfScope
    case RunArtifact => reason == RunFactNotUserMemory
    case _ => false
  }

  /** The reason is true of the evidence and the policy. */
  ghost predicate Bars(e: Evidence, p: Policy, c: Classifiers, reason: Reason) {
    match reason
    case SecretNeverStore => IsSecret(e, c)
    case VolatileObservation => e.volatile || c.volatileField(e.canonicalKey)
    case ScopeWideningDenied =>
      e.requestedScope != p.scope
      || (e.existing.Some? && (e.existing.value.scope != p.scope || e.existing.value.canonicalKey != e.canonicalKey))
    case MemoryTypeNotAllowed => e.memoryType !in p.allowedTypes
    case SourceNotAuthorized => e.provenance.sourceKind !in p.sources
    case PersistenceNotAuthorized => !p.allowPersist
    case SensitiveWithoutExplicitPersistence => IsSensitive(e, c) && !e.explicitPersist
    case NoPersistableEvidence => SourceBars(e, c, reason) || (!e.explicitPersist && !IsSensitive(e, c))
    case InvalidEvidence => Strip(e.canonicalKey) == "" || Strip(e.value) == ""
    case DuplicateSameValue => e.existing.Some? && e.existing.value.value == e.value
    case _ => SourceBars(e, c, reason)
  }

  lemma Classified(e: Evidence, c: Classifiers)
    ensures Secret(e, c) <==> IsSecret(e, c)
    ensures Volatile(e, c) <==> e.volatile || c.volatileField(e.canonicalKey)
    ensures Sensitive(e, c) <==> IsSensitive(e, c)
    ensures forall reason :: SourceRejection(e, c) == Some(reason) <==> SourceBars(e, c, reason)
  {
  }

  /** Evidence that is not learned is ignored for a reason that is true of it. */
  lemma IgnoredForAReason(e: Evidence, p: Policy, c: Classifiers)
    requires Decide(e, p, c).action == Ignore
    ensures Bars(e, p, c, Decide(e, p, c).reason)
    ensures Decide(e, p, c).write == None && Decide(e, p, c).resolution == None
  {
    Classified(e, c);
    hide Secret, Volatile, Sensitive, SourceRejection, IsSecret, IsSensitive, StoreReason, Strip;
  }

  /** Of several reasons the first in this order is given: secret, volatile, source, scope, type, source kind, policy, consent. */
  lemma IgnoredForTheFirstReason(e: Evidence, p: Policy, c: Classifiers)
    requires Decide(e, p, c).action == Ignore
    ensures var reason := Decide(e, p, c).reason;
            var learnable := !IsSecret(e, c) && !e.volatile && !c.volatileField(e.canonicalKey)
              && e.provenance.sourceKind !in {UserRequest, AssistantOutput, RepositoryObservation, RunArtifact};
            && (IsSecret(e, c) ==> reason == SecretNeverStore)
            && (e.volatile || c.volatileField(e.canonicalKey) ==> reason == SecretNeverStore || reason == VolatileObservation)
            && (!IsSecret(e, c) && !e.volatile && !c.volatileField(e.canonicalKey) && !learnable ==> SourceBars(e, c, reason))
            && (learnable && e.requestedScope != p.scope ==> reason == ScopeWideningDenied)
            && (learnable && e.memoryType !in p.allowedTypes ==> reason in {ScopeWideningDenied, MemoryTypeNotAllowed})
            && (learnable && e.provenance.sourceKind !in p.sources ==> reason in {ScopeWideningDenied, MemoryTypeNotAllowed, SourceNotAuthorized})
            && (learnable && !p.allowPersist ==>
                  reason in {ScopeWideningDenied, MemoryTypeNotAllowed, SourceNotAuthorized, PersistenceNotAuthorized})
            && (learnable && !e.explicitPersist ==> reason != InvalidEvidence && reason != DuplicateSameValue)
            && (learnable && (Strip(e.canonicalKey) == "" || Strip(e.value) == "") ==> reason != DuplicateSameValue)
  {
    Classified(e, c);
    hide Secret, Volatile, Sensitive, IsSecret, IsSensitive, StoreReason, Strip;
  }

  /** What is learned is written trimmed, in the policy's scope, with a resolution only for one; an update says so. */
  lemma LearnedAs(e: Evidence, p: Policy, c: Classifiers)
    requires Decide(e, p, c).action != Ignore
    ensures var d := Decide(e, p, c);
            && d.write == Some(Write(e.memoryType, p.scope, Strip(e.canonicalKey), Strip(e.value), e.provenance))
            && d.resolution == (if e.memoryType == Resolution then e.resolution else None)
            && (d.reason == ExplicitValueUpdate <==> d.action == Update)
            && (d.action == Store ==> StoredBecause(e, p, c, d.reason))
  {
    Classified(e, c);
    hide Secret, Volatile, Sensitive, SourceRejection, IsSecret, IsSensitive, Strip;
  }

  /** Why something new is stored, by its sensitivity, its type and the scope of the policy. */
  ghost predicate StoredBecause(e: Evidence, p: Policy, c: Classifiers, reason: Reason) {
    match reason
    case ExplicitSensitivePersistence => IsSensitive(e, c)
    case ConfirmedResolutionStored => !IsSensitive(e, c) && e.memoryType == Resolution
    case ExplicitProjectPreference => !IsSensitive(e, c) && e.memoryType == Preference && p.scope == RepositoryScope
    case ExplicitRepositoryFact => !IsSensitive(e, c) && e.memoryType in {Fact, Summary} && p.scope == RepositoryScope
    case ExplicitSessionPreference => !IsSensitive(e, c) && e.memoryType != Resolution && p.scope == SessionScope
    case NewCanonicalFact =>
      !IsSensitive(e, c) && e.memoryType == Preference && p.scope == UserScope && e.memoryAction != Remember && !c.asksToKeep(e.text)
    case ExplicitUserPreference =>
      !IsSensitive(e, c) && e.memoryType == Preference && p.scope == UserScope && (e.memoryAction == Remember || c.asksToKeep(e.text))
    case ExplicitUserFact => !IsSensitive(e, c) && e.memoryType in {Fact, Summary} && p.scope == UserScope
    case _ => false
  }

  /** A veto names the provider, and a decision the policy already took against the evidence stands as it is. */
  lemma VetoSays(e: Evidence, p: Policy, c: Classifiers, proposal: Decision)
    requires Authorize(e, p, c, proposal).action == Ignore
    ensures var made, own := Authorize(e, p, c, proposal), Decide(e, p, c);
            if own.action == Ignore then made == own
            else made.write == None && made.resolution == None
                 && made.reason == if proposal.action == Ignore then ProviderProposedIgnore else ProviderProposalRejected
  {
    hide Decide;
  }

  // The fact table.

  /** A request fails exactly when it holds no value, or would store over a row of another value or other evidence. */
  lemma PersistFailsExactly(t: Table, r: Request)
    ensures var (after, outcome), at := Persist(t, r), Position(t.rows, r.at);
            && (outcome == Failure(EmptyValue) <==> Strip(r.value) == "")
            && (outcome == Failure(AlreadyExists) <==>
                Strip(r.value) != "" && r.action != Update && at.Some?
                && (t.rows[at.value].value != Strip(r.value) || t.rows[at.value].provenance.evidenceId != r.provenance.evidenceId))
            && (outcome.Failure? ==> after == t && (outcome.error == EmptyValue || outcome.error == AlreadyExists))
  {
    hide Strip;
  }

  /** A first write is the next row, at revision one; an update keeps the row's id and place and counts one revision. */
  lemma PersistWrites(t: Table, r: Request)
    requires Persist(t, r).1.Success? && Persist(t, r).0 != t
    ensures var (after, outcome), at := Persist(t, r), Position(t.rows, r.at);
            if at.None? then
              && after.rows == t.rows + [Row(t.nextId, r.at, Strip(r.value), r.provenance, 1)] && after.nextId == t.nextId + 1
              && outcome.value == Receipt(t.nextId, Some(1))
            else
              var row := t.rows[at.value];
              && after == t.(rows := t.rows[at.value := row.(value := Strip(r.value), provenance := r.provenance, revision := row.revision + 1)])
              && outcome.value == Receipt(row.id, Some(row.revision + 1)) && r.action == Update
  {
    hide Strip;
  }

  /** The first row of a table that starts empty has id 1. */
  lemma FirstRow(r: Request)
    requires Strip(r.value) != ""
    ensures Persist(After([]), r) == (Table([Row(1, r.at, Strip(r.value), r.provenance, 1)], 2), Success(Receipt(1, Some(1))))
  {
    hide Strip;
    var row := Row(1, r.at, Strip(r.value), r.provenance, 1);
    assert After([]) == Table([], 1) && Position([], r.at) == None;
    assert [] + [row] == [row];
  }

  // The evidence of a commit.

  /** What a commitment says of its decision, whether it was written or not. */
  lemma CommitmentNames(t: Table, d: Decision, p: Policy, elsewhere: Result<Receipt, StoreError>)
    requires d.Valid()
    ensures var made := Commit(t, d, p, elsewhere).1;
            && made.action == d.action
            && (d.write.Some? ==>
                  && made.scope == Some(d.write.value.scope) && made.canonicalKey == d.write.value.canonicalKey
                  && made.evidenceId == d.write.value.provenance.evidenceId)
            && (d.write.None? ==> made.scope == None && made.canonicalKey == "" && made.evidenceId == "" && made.store == NoStore)
  {
    hide Persist, SplitKey, RequestOf, Strip;
  }
}

/** What a checkpoint's document looks like: it is JSON through and through, and a field that is absent reads as its default. */
module DocumentShape {
  import opened Text
  import opened PlanValues
  import opened Contracts
  import opened Codec
  import opened DocumentKeys
  import opened Documents

  // JSON all the way down.

  predicate JsonFields(fields: map<Key, Value>) { forall key | key in fields :: IsJson(fields[key]) }

  lemma ObjectIsJson(fields: map<Key, Value>)
    requires JsonFields(fields)
    ensures IsJson(ObjectOf(fields))
  {
    forall name | name in Names(fields) ensures IsJson(Named(fields, name)) {
      var key :| key in fields && Name(key) == name;
      NameReadsBack(key);
    }
    hide Name, KeyNamed, Named;
  }

  lemma TextsAreJson(ss: seq<string>)
    ensures IsJson(Texts(ss))
  {
  }

  lemma EvidenceIsJson(es: seq<RuntimeEvidence>)
    ensures IsJson(EvidenceItems(es))
  {
    hide ObjectOf;
    forall i | 0 <= i < |es| ensures IsJson(EvidenceObject(es[i])) { ObjectIsJson(EvidenceFields(es[i])); }
    hide EvidenceObject;
  }

  lemma GuardsAreJson(guards: seq<GuardDoc>)
    ensures IsJson(GuardItems(guards))
  {
    hide ObjectOf;
    forall i | 0 <= i < |guards| ensures IsJson(GuardObject(guards[i])) { ObjectIsJson(GuardFields(guards[i])); }
    hide GuardObject;
  }

  lemma EffectsAreJson(effects: seq<EffectDoc>)
    ensures IsJson(EffectItems(effects))
  {
    hide ObjectOf, EvidenceItems;
    forall i | 0 <= i < |effects| ensures IsJson(EffectObject(effects[i])) {
      EvidenceIsJson(effects[i].evidence);
      ObjectIsJson(EffectFields(effects[i]));
    }
    hide EffectObject;
  }

  lemma ArtifactsAreJson(artifacts: seq<ArtifactDoc>)
    ensures IsJson(ArtifactItems(artifacts))
  {
    hide ObjectOf;
    forall i | 0 <= i < |artifacts| ensures IsJson(ArtifactObject(artifacts[i])) {
      assert IsJson(MetadataObject(artifacts[i].metadata));
      ObjectIsJson(ArtifactFields(artifacts[i]));
    }
    hide ArtifactObject;
  }

  lemma FailureIsJson(f: Option<FailureEventSnapshot>)
    ensures IsJson(FailureValue(f))
  {
    hide ObjectOf, EvidenceItems;
    if f.Some? {
      EvidenceIsJson(f.value.evidence);
      ObjectIsJson(FailureFields(f.value));
    }
  }

  lemma GroupsAreJson(d: CheckpointDoc)
    requires IsJson(d.executionPlan)
    ensures JsonFields(IdentityFields(d.body)) && JsonFields(PositionFields(d, d.body))
    ensures JsonFields(ProgressFields(d, d.body)) && JsonFields(SettingFields(d, d.body))
  {
    hide Texts, EvidenceItems, GuardItems, EffectItems, ArtifactItems, FailureValue;
    TextsAreJson(d.body.completedStageIds);
    TextsAreJson(d.body.completedTaskIds);
    TextsAreJson(d.body.idempotencyKeys);
    TextsAreJson(d.body.invalidationReasons);
    EvidenceIsJson(d.body.runtimeEvidence);
    GuardsAreJson(d.guards);
    EffectsAreJson(d.effects);
    ArtifactsAreJson(d.artifacts);
    FailureIsJson(d.body.failureEvent);
  }

  /** The document of a well-formed checkpoint holds nothing but JSON, whatever sets its frozen plan holds. */
  lemma DocumentIsJson(c: RunCheckpoint)
    requires WellFormed(c)
    ensures IsJson(EncodeObject(c))
  {
    FreezeUndoesThaw(c.executionPlan);
    GroupsAreJson(Encode(c));
    hide IdentityFields, PositionFields, ProgressFields, SettingFields, ObjectOf, IsJson, Thaw;
    ObjectIsJson(CheckpointFields(Encode(c)));
  }

  // Absent fields.

  function NoFields(): Value { Dict(map[]) }

  /** The small records, read from an object without fields. */
  lemma AbsentFieldsOfRecords()
    ensures EvidenceFrom(NoFields()) == RuntimeEvidence("", "", "", "", "VERIFIED", "")
    ensures GuardFrom(NoFields()) == GuardDoc("", "", "", "", "", "VERIFIED")
    ensures EffectFrom(NoFields()) == EffectDoc("", "", "", "", "NONE", "", [])
    ensures ArtifactFrom(NoFields()) == ArtifactDoc("", "", "", true, "", "", map[])
    ensures FailureFrom(NoFields()) == FailureEventSnapshot("", "", "", "", [])
  {
    assert forall key :: Get(NoFields(), key) == None;
    hide Get;
  }

  /** A checkpoint, read from an object without fields. */
  lemma AbsentFieldsOfCheckpoint()
    ensures var d, b := CheckpointFrom(NoFields()), CheckpointFrom(NoFields()).body;
            && d.status == "CREATED" && d.executionPlan == Dict(map[]) && d.artifacts == [] && d.proposedNextAction == None
            && d.effects == [] && d.guards == []
            && b.verifierStatus == "UNKNOWN" && b.schemaVersion == "1.0" && b.contractVersion == "v2.2A"
            && b.sequenceNumber == 0 && b.parentCheckpointId == None && b.supersedesRunId == None && b.failureEvent == None
            && b.completedStageIds == b.completedTaskIds == b.idempotencyKeys == b.invalidationReasons == [] && b.runtimeEvidence == []
    ensures var b := CheckpointFrom(NoFields()).body;
            && b.runId == b.checkpointId == b.sessionId == b.conversationId == b.userScope == b.workflowId == b.workflowVersion == ""
            && b.planVersion == b.activeStageId == b.activeTaskId == b.targetSummary == b.activationAttemptId == b.createdAt == b.updatedAt == ""
  {
    assert forall key :: Get(NoFields(), key) == None;
    hide Get;
  }
}

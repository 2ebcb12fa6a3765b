/**
 * Checkpoint documents as JSON objects: every field is written under its own
 * key, and read from it. A value of another type than the field's is read as
 * if the key were missing.
 */
module Documents {
  import opened Text
  import opened PlanValues
  import opened Contracts
  import opened Compatibility
  import opened Codec
  import opened DocumentKeys

  // Objects and lists.

  function Names(fields: map<Key, Value>): set<string> { set key | key in fields :: Name(key) }

  /** What the object holds under a name. */
  function Named(fields: map<Key, Value>, name: string): Value {
    var key := KeyNamed(name);
    if key.Some? && key.value in fields then fields[key.value] else Null
  }

  /** The JSON object holding the fields under their names. */
  function ObjectOf(fields: map<Key, Value>): Value {
    Dict(map name | name in Names(fields) :: Named(fields, name))
  }

  /** `value.get(key)`. */
  function Get(v: Value, key: Key): Option<Value> {
    if v.Dict? && Name(key) in v.fields then Some(v.fields[Name(key)]) else None
  }

  /** An object holds what was written under each key, and nothing else. */
  lemma GetObject(fields: map<Key, Value>, key: Key)
    ensures Get(ObjectOf(fields), key) == if key in fields then Some(fields[key]) else None
  {
    hide Name, KeyNamed;
    NameReadsBack(key);
    if key in fields {
      assert Name(key) in Names(fields);
    } else if Name(key) in Names(fields) {
      var other :| other in fields && Name(other) == Name(key);
      NameReadsBack(other);
      assert false;
    }
  }

  ghost predicate Holds(v: Value, fields: map<Key, Value>) {
    forall key :: key in fields ==> Get(v, key) == Some(fields[key])
  }

  lemma ObjectHolds(fields: map<Key, Value>)
    ensures Holds(ObjectOf(fields), fields)
  {
    hide Get, ObjectOf;
    forall key | key in fields ensures Get(ObjectOf(fields), key) == Some(fields[key]) {
      GetObject(fields, key);
    }
  }

  /** `value.get(key, default)` of a text. */
  function TextAt(v: Value, key: Key, default: string): string {
    var item := Get(v, key);
    if item.Some? && item.value.Str? then item.value.s else default
  }

  function MaybeText(s: Option<string>): Value { if s.Some? then Str(s.value) else Null }

  function MaybeTextAt(v: Value, key: Key): Option<string> {
    var item := Get(v, key);
    if item.Some? && item.value.Str? then Some(item.value.s) else None
  }

  function ItemsAt(v: Value, key: Key): seq<Value> {
    var item := Get(v, key);
    if item.Some? && item.value.Items? then item.value.items else []
  }

  function Texts(ss: seq<string>): Value { Items(List, seq(|ss|, i requires 0 <= i < |ss| => Str(ss[i]))) }

  function TextsAt(v: Value, key: Key): seq<string> {
    var items := ItemsAt(v, key);
    seq(|items|, i requires 0 <= i < |items| => if items[i].Str? then items[i].s else "")
  }

  lemma TextsReadBack(v: Value, key: Key, ss: seq<string>)
    requires Get(v, key) == Some(Texts(ss))
    ensures TextsAt(v, key) == ss
  {
    hide Get;
  }

  // Evidence.

  function EvidenceFields(e: RuntimeEvidence): map<Key, Value> {
    map[SourceKey := Str(e.source), KindKey := Str(e.kind), ExpectedKey := Str(e.expected),
        ObservedKey := Str(e.observed), StatusKey := Str(e.status), DetailKey := Str(e.detail)]
  }

  function EvidenceObject(e: RuntimeEvidence): Value { ObjectOf(EvidenceFields(e)) }

  function EvidenceFrom(v: Value): RuntimeEvidence {
    RuntimeEvidence(TextAt(v, SourceKey, ""), TextAt(v, KindKey, ""), TextAt(v, ExpectedKey, ""),
                    TextAt(v, ObservedKey, ""), TextAt(v, StatusKey, "VERIFIED"), TextAt(v, DetailKey, ""))
  }

  lemma EvidenceReadsBack(e: RuntimeEvidence)
    ensures EvidenceFrom(EvidenceObject(e)) == e
  {
    hide Get, ObjectOf;
    ObjectHolds(EvidenceFields(e));
  }

  function EvidenceItems(es: seq<RuntimeEvidence>): Value {
    Items(List, seq(|es|, i requires 0 <= i < |es| => EvidenceObject(es[i])))
  }

  function EvidenceAt(v: Value, key: Key): seq<RuntimeEvidence> {
    var items := ItemsAt(v, key);
    seq(|items|, i requires 0 <= i < |items| => EvidenceFrom(items[i]))
  }

  lemma EvidenceItemsReadBack(v: Value, key: Key, es: seq<RuntimeEvidence>)
    requires Get(v, key) == Some(EvidenceItems(es))
    ensures EvidenceAt(v, key) == es
  {
    hide Get, EvidenceFrom, EvidenceObject;
    forall i | 0 <= i < |es| ensures EvidenceFrom(EvidenceObject(es[i])) == es[i] {
      EvidenceReadsBack(es[i]);
    }
  }

  // Guards.

  function GuardFields(g: GuardDoc): map<Key, Value> {
    map[ResourceIdKey := Str(g.resourceId), GuardTypeKey := Str(g.guardType),
        ExpectedValueKey := Str(g.expectedValue), ObservedValueKey := Str(g.observedValue),
        CheckedAtKey := Str(g.checkedAt), StatusKey := Str(g.status)]
  }

  function GuardObject(g: GuardDoc): Value { ObjectOf(GuardFields(g)) }

  function GuardFrom(v: Value): GuardDoc {
    GuardDoc(TextAt(v, ResourceIdKey, ""), TextAt(v, GuardTypeKey, ""), TextAt(v, ExpectedValueKey, ""),
             TextAt(v, ObservedValueKey, ""), TextAt(v, CheckedAtKey, ""), TextAt(v, StatusKey, "VERIFIED"))
  }

  lemma GuardReadsBack(g: GuardDoc)
    ensures GuardFrom(GuardObject(g)) == g
  {
    hide Get, ObjectOf;
    ObjectHolds(GuardFields(g));
  }

  // Task effects.

  function EffectFields(r: EffectDoc): map<Key, Value> {
    map[TaskIdKey := Str(r.taskId), ToolNameKey := Str(r.toolName), OperationTypeKey := Str(r.operationType),
        IdempotencyKeyKey := Str(r.idempotencyKey), EffectStateKey := Str(r.effectState),
        ExternalReferenceKey := Str(r.externalReference), EvidenceKey := EvidenceItems(r.evidence)]
  }

  function EffectObject(r: EffectDoc): Value { ObjectOf(EffectFields(r)) }

  function EffectFrom(v: Value): EffectDoc {
    EffectDoc(TextAt(v, TaskIdKey, ""), TextAt(v, ToolNameKey, ""), TextAt(v, OperationTypeKey, ""),
              TextAt(v, IdempotencyKeyKey, ""), TextAt(v, EffectStateKey, "NONE"), TextAt(v, ExternalReferenceKey, ""), EvidenceAt(v, EvidenceKey))
  }

  lemma EffectReadsBack(r: EffectDoc)
    ensures EffectFrom(EffectObject(r)) == r
  {
    hide Get, ObjectOf, EvidenceItems, EvidenceAt;
    ObjectHolds(EffectFields(r));
    EvidenceItemsReadBack(EffectObject(r), EvidenceKey, r.evidence);
  }

  // Artifacts.

  function ArtifactFields(a: ArtifactDoc): map<Key, Value> {
    map[ArtifactIdKey := Str(a.artifactId), ArtifactTypeKey := Str(a.artifactType), DigestKey := Str(a.digest),
        ExistsKey := Bool(a.present), VersionKey := Str(a.version), ReferenceKey := Str(a.reference),
        MetadataKey := MetadataObject(a.metadata)]
  }

  function MetadataObject(m: map<string, string>): Value { Dict(map k | k in m :: Str(m[k])) }

  function MetadataAt(v: Value, key: Key): map<string, string> {
    var item := Get(v, key);
    if item.Some? && item.value.Dict? then
      map k | k in item.value.fields :: if item.value.fields[k].Str? then item.value.fields[k].s else ""
    else map[]
  }

  function FlagAt(v: Value, key: Key, default: bool): bool {
    var item := Get(v, key);
    if item.Some? && item.value.Bool? then item.value.b else default
  }

  lemma MetadataReadsBack(v: Value, key: Key, m: map<string, string>)
    requires Get(v, key) == Some(MetadataObject(m))
    ensures MetadataAt(v, key) == m
  {
    hide Get;
  }

  function ArtifactObject(a: ArtifactDoc): Value { ObjectOf(ArtifactFields(a)) }

  function ArtifactFrom(v: Value): ArtifactDoc {
    ArtifactDoc(TextAt(v, ArtifactIdKey, ""), TextAt(v, ArtifactTypeKey, ""), TextAt(v, DigestKey, ""),
                FlagAt(v, ExistsKey, true), TextAt(v, VersionKey, ""), TextAt(v, ReferenceKey, ""), MetadataAt(v, MetadataKey))
  }

  lemma ArtifactReadsBack(a: ArtifactDoc)
    ensures ArtifactFrom(ArtifactObject(a)) == a
  {
    hide Get, ObjectOf, MetadataObject, MetadataAt;
    ObjectHolds(ArtifactFields(a));
    MetadataReadsBack(ArtifactObject(a), MetadataKey, a.metadata);
  }

  // The failure event.

  function FailureFields(f: FailureEventSnapshot): map<Key, Value> {
    map[EventIdKey := Str(f.eventId), LayerKey := Str(f.layer), SymptomKey := Str(f.symptom),
        FailureKey := Str(f.failure), EvidenceKey := EvidenceItems(f.evidence)]
  }

  function FailureObject(f: FailureEventSnapshot): Value { ObjectOf(FailureFields(f)) }

  function FailureFrom(v: Value): FailureEventSnapshot {
    FailureEventSnapshot(TextAt(v, EventIdKey, ""), TextAt(v, LayerKey, ""), TextAt(v, SymptomKey, ""),
                         TextAt(v, FailureKey, ""), EvidenceAt(v, EvidenceKey))
  }

  lemma FailureReadsBack(f: FailureEventSnapshot)
    ensures FailureFrom(FailureObject(f)) == f && FailureObject(f).Dict?
  {
    hide Get, EvidenceItems, EvidenceAt;
    ObjectHolds(FailureFields(f));
    EvidenceItemsReadBack(FailureObject(f), EvidenceKey, f.evidence);
  }

  function FailureValue(f: Option<FailureEventSnapshot>): Value { if f.Some? then FailureObject(f.value) else Null }

  function FailureAt(v: Value, key: Key): Option<FailureEventSnapshot> {
    var item := Get(v, key);
    if item.Some? && item.value.Dict? then Some(FailureFrom(item.value)) else None
  }

  lemma FailureValueReadsBack(v: Value, key: Key, f: Option<FailureEventSnapshot>)
    requires Get(v, key) == Some(FailureValue(f))
    ensures FailureAt(v, key) == f
  {
    hide Get, FailureObject, FailureFrom;
    if f.Some? {
      FailureReadsBack(f.value);
    }
  }

  // The whole checkpoint.

  function ArtifactItems(artifacts: seq<ArtifactDoc>): Value {
    Items(List, seq(|artifacts|, i requires 0 <= i < |artifacts| => ArtifactObject(artifacts[i])))
  }

  function ArtifactsAt(v: Value, key: Key): seq<ArtifactDoc> {
    var items := ItemsAt(v, key);
    seq(|items|, i requires 0 <= i < |items| => ArtifactFrom(items[i]))
  }

  lemma ArtifactItemsReadBack(v: Value, key: Key, artifacts: seq<ArtifactDoc>)
    requires Get(v, key) == Some(ArtifactItems(artifacts))
    ensures ArtifactsAt(v, key) == artifacts
  {
    hide Get, ArtifactFrom, ArtifactObject;
    forall i | 0 <= i < |artifacts| ensures ArtifactFrom(ArtifactObject(artifacts[i])) == artifacts[i] {
      ArtifactReadsBack(artifacts[i]);
    }
  }

  function EffectItems(effects: seq<EffectDoc>): Value {
    Items(List, seq(|effects|, i requires 0 <= i < |effects| => EffectObject(effects[i])))
  }

  function EffectsAt(v: Value, key: Key): seq<EffectDoc> {
    var items := ItemsAt(v, key);
    seq(|items|, i requires 0 <= i < |items| => EffectFrom(items[i]))
  }

  lemma EffectItemsReadBack(v: Value, key: Key, effects: seq<EffectDoc>)
    requires Get(v, key) == Some(EffectItems(effects))
    ensures EffectsAt(v, key) == effects
  {
    hide Get, EffectFrom, EffectObject;
    forall i | 0 <= i < |effects| ensures EffectFrom(EffectObject(effects[i])) == effects[i] {
      EffectReadsBack(effects[i]);
    }
  }

  function GuardItems(guards: seq<GuardDoc>): Value {
    Items(List, seq(|guards|, i requires 0 <= i < |guards| => GuardObject(guards[i])))
  }

  function GuardsAt(v: Value, key: Key): seq<GuardDoc> {
    var items := ItemsAt(v, key);
    seq(|items|, i requires 0 <= i < |items| => GuardFrom(items[i]))
  }

  lemma GuardItemsReadBack(v: Value, key: Key, guards: seq<GuardDoc>)
    requires Get(v, key) == Some(GuardItems(guards))
    ensures GuardsAt(v, key) == guards
  {
    hide Get, GuardFrom, GuardObject;
    forall i | 0 <= i < |guards| ensures GuardFrom(GuardObject(guards[i])) == guards[i] {
      GuardReadsBack(guards[i]);
    }
  }

  function IdentityFields(b: RunCheckpoint): map<Key, Value> {
    map[RunIdKey := Str(b.runId), CheckpointIdKey := Str(b.checkpointId),
        ParentCheckpointIdKey := MaybeText(b.parentCheckpointId), SequenceNumberKey := Int(b.sequenceNumber),
        SessionIdKey := Str(b.sessionId), ConversationIdKey := Str(b.conversationId),
        UserScopeKey := Str(b.userScope), WorkflowIdKey := Str(b.workflowId)]
  }

  function PositionFields(d: CheckpointDoc, b: RunCheckpoint): map<Key, Value> {
    map[WorkflowVersionKey := Str(b.workflowVersion), PlanVersionKey := Str(b.planVersion),
        ActiveStageIdKey := Str(b.activeStageId), ActiveTaskIdKey := Str(b.activeTaskId), StatusKey := Str(d.status),
        ExecutionPlanKey := d.executionPlan, TargetSummaryKey := Str(b.targetSummary),
        ActivationAttemptIdKey := Str(b.activationAttemptId)]
  }

  function ProgressFields(d: CheckpointDoc, b: RunCheckpoint): map<Key, Value> {
    map[CompletedStageIdsKey := Texts(b.completedStageIds), CompletedTaskIdsKey := Texts(b.completedTaskIds),
        ArtifactsKey := ArtifactItems(d.artifacts), VerifierStatusKey := Str(b.verifierStatus),
        FailureEventKey := FailureValue(b.failureEvent), ProposedNextActionKey := MaybeText(d.proposedNextAction),
        TaskEffectRecordsKey := EffectItems(d.effects), IdempotencyKeysKey := Texts(b.idempotencyKeys)]
  }

  function SettingFields(d: CheckpointDoc, b: RunCheckpoint): map<Key, Value> {
    map[ExternalStateGuardsKey := GuardItems(d.guards), InvalidationReasonsKey := Texts(b.invalidationReasons),
        RuntimeEvidenceKey := EvidenceItems(b.runtimeEvidence), CheckpointSchemaVersionKey := Str(b.schemaVersion),
        ContractVersionKey := Str(b.contractVersion), CreatedAtKey := Str(b.createdAt),
        UpdatedAtKey := Str(b.updatedAt), SupersedesRunIdKey := MaybeText(b.supersedesRunId)]
  }

  function CheckpointFields(d: CheckpointDoc): map<Key, Value> {
    IdentityFields(d.body) + PositionFields(d, d.body) + ProgressFields(d, d.body) + SettingFields(d, d.body)
  }

  /** `to_dict`: the JSON object of a checkpoint. */
  function CheckpointObject(d: CheckpointDoc): Value { ObjectOf(CheckpointFields(d)) }

  function IntAt(v: Value, key: Key): int {
    var item := Get(v, key);
    if item.Some? && item.value.Int? then item.value.n else 0
  }

  function PlanAt(v: Value): Value {
    var plan := Get(v, ExecutionPlanKey);
    if plan.Some? && !plan.value.Null? then plan.value else Dict(map[])
  }

  function BodyFrom(v: Value): RunCheckpoint {
    RunCheckpoint(
      TextAt(v, RunIdKey, ""), TextAt(v, CheckpointIdKey, ""), MaybeTextAt(v, ParentCheckpointIdKey),
      IntAt(v, SequenceNumberKey), TextAt(v, SessionIdKey, ""), TextAt(v, ConversationIdKey, ""),
      TextAt(v, UserScopeKey, ""), TextAt(v, WorkflowIdKey, ""), TextAt(v, WorkflowVersionKey, ""),
      TextAt(v, PlanVersionKey, ""), TextAt(v, ActiveStageIdKey, ""), TextAt(v, ActiveTaskIdKey, ""), Created, Null,
      TextAt(v, TargetSummaryKey, ""), TextAt(v, ActivationAttemptIdKey, ""), TextsAt(v, CompletedStageIdsKey),
      TextsAt(v, CompletedTaskIdsKey), [], TextAt(v, VerifierStatusKey, "UNKNOWN"), FailureAt(v, FailureEventKey),
      None, [], TextsAt(v, IdempotencyKeysKey), [], TextsAt(v, InvalidationReasonsKey),
      EvidenceAt(v, RuntimeEvidenceKey), TextAt(v, CheckpointSchemaVersionKey, "1.0"),
      TextAt(v, ContractVersionKey, "v2.2A"), TextAt(v, CreatedAtKey, ""), TextAt(v, UpdatedAtKey, ""),
      MaybeTextAt(v, SupersedesRunIdKey))
  }

  /** `from_dict`: what each field is read from. */
  function CheckpointFrom(v: Value): CheckpointDoc {
    CheckpointDoc(
      BodyFrom(v), TextAt(v, StatusKey, "CREATED"), PlanAt(v), ArtifactsAt(v, ArtifactsKey),
      MaybeTextAt(v, ProposedNextActionKey), EffectsAt(v, TaskEffectRecordsKey), GuardsAt(v, ExternalStateGuardsKey))
  }

  lemma IdentityFieldsReadBack(v: Value, b: RunCheckpoint)
    requires Holds(v, IdentityFields(b))
    ensures TextAt(v, RunIdKey, "") == b.runId && TextAt(v, CheckpointIdKey, "") == b.checkpointId
    ensures MaybeTextAt(v, ParentCheckpointIdKey) == b.parentCheckpointId
    ensures IntAt(v, SequenceNumberKey) == b.sequenceNumber && TextAt(v, SessionIdKey, "") == b.sessionId
    ensures TextAt(v, ConversationIdKey, "") == b.conversationId && TextAt(v, UserScopeKey, "") == b.userScope
    ensures TextAt(v, WorkflowIdKey, "") == b.workflowId
  {
    hide Get;
  }

  lemma PositionFieldsReadBack(v: Value, d: CheckpointDoc, b: RunCheckpoint)
    requires Holds(v, PositionFields(d, b))
    ensures TextAt(v, WorkflowVersionKey, "") == b.workflowVersion && TextAt(v, PlanVersionKey, "") == b.planVersion
    ensures TextAt(v, ActiveStageIdKey, "") == b.activeStageId && TextAt(v, ActiveTaskIdKey, "") == b.activeTaskId
    ensures TextAt(v, StatusKey, "CREATED") == d.status && Get(v, ExecutionPlanKey) == Some(d.executionPlan)
    ensures TextAt(v, TargetSummaryKey, "") == b.targetSummary
    ensures TextAt(v, ActivationAttemptIdKey, "") == b.activationAttemptId
  {
    hide Get;
  }

  lemma ProgressFieldsReadBack(v: Value, d: CheckpointDoc, b: RunCheckpoint)
    requires Holds(v, ProgressFields(d, b))
    ensures TextsAt(v, CompletedStageIdsKey) == b.completedStageIds
    ensures TextsAt(v, CompletedTaskIdsKey) == b.completedTaskIds && ArtifactsAt(v, ArtifactsKey) == d.artifacts
    ensures TextAt(v, VerifierStatusKey, "UNKNOWN") == b.verifierStatus
    ensures FailureAt(v, FailureEventKey) == b.failureEvent
    ensures MaybeTextAt(v, ProposedNextActionKey) == d.proposedNextAction
    ensures EffectsAt(v, TaskEffectRecordsKey) == d.effects && TextsAt(v, IdempotencyKeysKey) == b.idempotencyKeys
  {
    hide Get, Texts, TextsAt, ArtifactItems, ArtifactsAt, EffectItems, EffectsAt, FailureValue, FailureAt;
    TextsReadBack(v, CompletedStageIdsKey, b.completedStageIds);
    TextsReadBack(v, CompletedTaskIdsKey, b.completedTaskIds);
    ArtifactItemsReadBack(v, ArtifactsKey, d.artifacts);
    FailureValueReadsBack(v, FailureEventKey, b.failureEvent);
    EffectItemsReadBack(v, TaskEffectRecordsKey, d.effects);
    TextsReadBack(v, IdempotencyKeysKey, b.idempotencyKeys);
  }

  lemma SettingFieldsReadBack(v: Value, d: CheckpointDoc, b: RunCheckpoint)
    requires Holds(v, SettingFields(d, b))
    ensures GuardsAt(v, ExternalStateGuardsKey) == d.guards
    ensures TextsAt(v, InvalidationReasonsKey) == b.invalidationReasons
    ensures EvidenceAt(v, RuntimeEvidenceKey) == b.runtimeEvidence
    ensures TextAt(v, CheckpointSchemaVersionKey, "1.0") == b.schemaVersion
    ensures TextAt(v, ContractVersionKey, "v2.2A") == b.contractVersion && TextAt(v, CreatedAtKey, "") == b.createdAt
    ensures TextAt(v, UpdatedAtKey, "") == b.updatedAt && MaybeTextAt(v, SupersedesRunIdKey) == b.supersedesRunId
  {
    hide Get, Texts, TextsAt, GuardItems, GuardsAt, EvidenceItems, EvidenceAt;
    GuardItemsReadBack(v, ExternalStateGuardsKey, d.guards);
    TextsReadBack(v, InvalidationReasonsKey, b.invalidationReasons);
    EvidenceItemsReadBack(v, RuntimeEvidenceKey, b.runtimeEvidence);
  }

  /** The group of fields a key belongs to. */
  function Group(key: Key): nat {
    match key
    case RunIdKey | CheckpointIdKey | ParentCheckpointIdKey | SequenceNumberKey | SessionIdKey |
      ConversationIdKey | UserScopeKey | WorkflowIdKey => 0
    case WorkflowVersionKey | PlanVersionKey | ActiveStageIdKey | ActiveTaskIdKey | StatusKey | ExecutionPlanKey |
      TargetSummaryKey | ActivationAttemptIdKey => 1
    case CompletedStageIdsKey | CompletedTaskIdsKey | ArtifactsKey | VerifierStatusKey | FailureEventKey |
      ProposedNextActionKey | TaskEffectRecordsKey | IdempotencyKeysKey => 2
    case ExternalStateGuardsKey | InvalidationReasonsKey | RuntimeEvidenceKey | CheckpointSchemaVersionKey |
      ContractVersionKey | CreatedAtKey | UpdatedAtKey | SupersedesRunIdKey => 3
    case _ => 4
  }

  lemma IdentityKeys(b: RunCheckpoint)
    ensures forall key :: key in IdentityFields(b) ==> Group(key) == 0
  {
  }

  lemma PositionKeys(d: CheckpointDoc, b: RunCheckpoint)
    ensures forall key :: key in PositionFields(d, b) ==> Group(key) == 1
  {
  }

  lemma ProgressKeys(d: CheckpointDoc, b: RunCheckpoint)
    ensures forall key :: key in ProgressFields(d, b) ==> Group(key) == 2
  {
  }

  lemma SettingKeys(d: CheckpointDoc, b: RunCheckpoint)
    ensures forall key :: key in SettingFields(d, b) ==> Group(key) == 3
  {
  }

  lemma GroupsAreHeld(d: CheckpointDoc)
    ensures Holds(CheckpointObject(d), IdentityFields(d.body)) && Holds(CheckpointObject(d), PositionFields(d, d.body))
    ensures Holds(CheckpointObject(d), ProgressFields(d, d.body)) && Holds(CheckpointObject(d), SettingFields(d, d.body))
  {
    hide IdentityFields, PositionFields, ProgressFields, SettingFields, Group, Get, ObjectOf;
    ObjectHolds(CheckpointFields(d));
    IdentityKeys(d.body);
    PositionKeys(d, d.body);
    ProgressKeys(d, d.body);
    SettingKeys(d, d.body);
  }

  /** Every key of an encoded checkpoint is read back into the field it was written from. */
  lemma ObjectReadsBack(c: RunCheckpoint)
    requires c.executionPlan.Dict?
    ensures CheckpointFrom(CheckpointObject(Encode(c))) == Encode(c)
  {
    hide IdentityFields, PositionFields, ProgressFields, SettingFields, Holds, Get, ObjectOf, CheckpointObject;
    hide TextAt, MaybeTextAt, IntAt, TextsAt, EvidenceAt, FailureAt, ArtifactsAt, EffectsAt, GuardsAt;
    var d := Encode(c);
    var v := CheckpointObject(d);
    GroupsAreHeld(d);
    IdentityFieldsReadBack(v, d.body);
    PositionFieldsReadBack(v, d, d.body);
    ProgressFieldsReadBack(v, d, d.body);
    SettingFieldsReadBack(v, d, d.body);
  }

  function EncodeObject(c: RunCheckpoint): Value { CheckpointObject(Encode(c)) }

  function DecodeObject(v: Value, expectedSchema: string): Result<RunCheckpoint, CodecError> {
    Decode(CheckpointFrom(v), expectedSchema)
  }

  /** Through the JSON object, the round trip is the identity exactly on canonical checkpoints of a fitting schema. */
  lemma ObjectRoundTrip(c: RunCheckpoint, expectedSchema: string)
    requires WellFormed(c)
    ensures DecodeObject(EncodeObject(c), expectedSchema) == Decode(Encode(c), expectedSchema)
    ensures DecodeObject(EncodeObject(c), expectedSchema) == Success(c) <==>
            MajorVersion(c.schemaVersion) == MajorVersion(expectedSchema) && Canonical(c)
  {
    ObjectReadsBack(c);
    DecodeEncodeIdentity(c, expectedSchema);
    hide *;
  }

  /** Two checkpoints have the same JSON object exactly when they have the same digest. */
  lemma ObjectIdentifies(a: RunCheckpoint, b: RunCheckpoint)
    requires WellFormed(a) && WellFormed(b)
    ensures EncodeObject(a) == EncodeObject(b) <==> Digest(a) == Digest(b)
  {
    ObjectReadsBack(a);
    ObjectReadsBack(b);
    hide WellFormed, CheckpointObject, CheckpointFrom, Encode;
  }
}

/** The keys of checkpoint documents, and their names in the JSON text, kept in six bands of length. */
module DocumentKeys {
  import opened Text

  datatype Key =
    | RunIdKey | CheckpointIdKey | ParentCheckpointIdKey | SequenceNumberKey | SessionIdKey | ConversationIdKey
    | UserScopeKey | WorkflowIdKey | WorkflowVersionKey | PlanVersionKey | ActiveStageIdKey | ActiveTaskIdKey
    | StatusKey | ExecutionPlanKey | TargetSummaryKey | ActivationAttemptIdKey | CompletedStageIdsKey
    | CompletedTaskIdsKey | ArtifactsKey | VerifierStatusKey | FailureEventKey | ProposedNextActionKey
    | TaskEffectRecordsKey | IdempotencyKeysKey | ExternalStateGuardsKey | InvalidationReasonsKey
    | RuntimeEvidenceKey | CheckpointSchemaVersionKey | ContractVersionKey | CreatedAtKey | UpdatedAtKey
    | SupersedesRunIdKey | SourceKey | KindKey | ExpectedKey | ObservedKey | DetailKey | ResourceIdKey | GuardTypeKey
    | ExpectedValueKey | ObservedValueKey | CheckedAtKey | TaskIdKey | ToolNameKey | OperationTypeKey
    | IdempotencyKeyKey | EffectStateKey | ExternalReferenceKey | EvidenceKey | ArtifactIdKey | ArtifactTypeKey
    | DigestKey | ExistsKey | VersionKey | ReferenceKey | MetadataKey | EventIdKey | LayerKey | SymptomKey
    | FailureKey

  function ShortName(key: Key): Option<string> {
    match key
    case RunIdKey => Some("run_id")
    case StatusKey => Some("status")
    case SourceKey => Some("source")
    case KindKey => Some("kind")
    case ExpectedKey => Some("expected")
    case ObservedKey => Some("observed")
    case DetailKey => Some("detail")
    case TaskIdKey => Some("task_id")
    case EvidenceKey => Some("evidence")
    case DigestKey => Some("digest")
    case ExistsKey => Some("exists")
    case VersionKey => Some("version")
    case MetadataKey => Some("metadata")
    case EventIdKey => Some("event_id")
    case LayerKey => Some("layer")
    case SymptomKey => Some("symptom")
    case FailureKey => Some("failure")
    case _ => None
  }

  function ShortKey(name: string): Option<Key> {
    match name
    case "run_id" => Some(RunIdKey)
    case "status" => Some(StatusKey)
    case "source" => Some(SourceKey)
    case "kind" => Some(KindKey)
    case "expected" => Some(ExpectedKey)
    case "observed" => Some(ObservedKey)
    case "detail" => Some(DetailKey)
    case "task_id" => Some(TaskIdKey)
    case "evidence" => Some(EvidenceKey)
    case "digest" => Some(DigestKey)
    case "exists" => Some(ExistsKey)
    case "version" => Some(VersionKey)
    case "metadata" => Some(MetadataKey)
    case "event_id" => Some(EventIdKey)
    case "layer" => Some(LayerKey)
    case "symptom" => Some(SymptomKey)
    case "failure" => Some(FailureKey)
    case _ => None
  }

  lemma ShortNameReadsBack(key: Key, name: string)
    requires ShortName(key) == Some(name)
    ensures |name| <= 8 && ShortKey(name) == Some(key)
  {
  }

  function MediumName(key: Key): Option<string> {
    match key
    case SessionIdKey => Some("session_id")
    case UserScopeKey => Some("user_scope")
    case WorkflowIdKey => Some("workflow_id")
    case ArtifactsKey => Some("artifacts")
    case CreatedAtKey => Some("created_at")
    case UpdatedAtKey => Some("updated_at")
    case ResourceIdKey => Some("resource_id")
    case GuardTypeKey => Some("guard_type")
    case CheckedAtKey => Some("checked_at")
    case ToolNameKey => Some("tool_name")
    case ArtifactIdKey => Some("artifact_id")
    case ReferenceKey => Some("reference")
    case _ => None
  }

  function MediumKey(name: string): Option<Key> {
    match name
    case "session_id" => Some(SessionIdKey)
    case "user_scope" => Some(UserScopeKey)
    case "workflow_id" => Some(WorkflowIdKey)
    case "artifacts" => Some(ArtifactsKey)
    case "created_at" => Some(CreatedAtKey)
    case "updated_at" => Some(UpdatedAtKey)
    case "resource_id" => Some(ResourceIdKey)
    case "guard_type" => Some(GuardTypeKey)
    case "checked_at" => Some(CheckedAtKey)
    case "tool_name" => Some(ToolNameKey)
    case "artifact_id" => Some(ArtifactIdKey)
    case "reference" => Some(ReferenceKey)
    case _ => None
  }

  lemma MediumNameReadsBack(key: Key, name: string)
    requires MediumName(key) == Some(name)
    ensures 9 <= |name| <= 11 && MediumKey(name) == Some(key)
  {
  }

  function MiddlingName(key: Key): Option<string> {
    match key
    case CheckpointIdKey => Some("checkpoint_id")
    case PlanVersionKey => Some("plan_version")
    case ActiveTaskIdKey => Some("active_task_id")
    case ExecutionPlanKey => Some("execution_plan")
    case TargetSummaryKey => Some("target_summary")
    case FailureEventKey => Some("failure_event")
    case ExpectedValueKey => Some("expected_value")
    case ObservedValueKey => Some("observed_value")
    case OperationTypeKey => Some("operation_type")
    case EffectStateKey => Some("effect_state")
    case ArtifactTypeKey => Some("artifact_type")
    case _ => None
  }

  function MiddlingKey(name: string): Option<Key> {
    match name
    case "checkpoint_id" => Some(CheckpointIdKey)
    case "plan_version" => Some(PlanVersionKey)
    case "active_task_id" => Some(ActiveTaskIdKey)
    case "execution_plan" => Some(ExecutionPlanKey)
    case "target_summary" => Some(TargetSummaryKey)
    case "failure_event" => Some(FailureEventKey)
    case "expected_value" => Some(ExpectedValueKey)
    case "observed_value" => Some(ObservedValueKey)
    case "operation_type" => Some(OperationTypeKey)
    case "effect_state" => Some(EffectStateKey)
    case "artifact_type" => Some(ArtifactTypeKey)
    case _ => None
  }

  lemma MiddlingNameReadsBack(key: Key, name: string)
    requires MiddlingName(key) == Some(name)
    ensures 12 <= |name| <= 14 && MiddlingKey(name) == Some(key)
  {
  }

  function LongName(key: Key): Option<string> {
    match key
    case SequenceNumberKey => Some("sequence_number")
    case ConversationIdKey => Some("conversation_id")
    case WorkflowVersionKey => Some("workflow_version")
    case ActiveStageIdKey => Some("active_stage_id")
    case VerifierStatusKey => Some("verifier_status")
    case IdempotencyKeysKey => Some("idempotency_keys")
    case RuntimeEvidenceKey => Some("runtime_evidence")
    case ContractVersionKey => Some("contract_version")
    case IdempotencyKeyKey => Some("idempotency_key")
    case _ => None
  }

  function LongKey(name: string): Option<Key> {
    match name
    case "sequence_number" => Some(SequenceNumberKey)
    case "conversation_id" => Some(ConversationIdKey)
    case "workflow_version" => Some(WorkflowVersionKey)
    case "active_stage_id" => Some(ActiveStageIdKey)
    case "verifier_status" => Some(VerifierStatusKey)
    case "idempotency_keys" => Some(IdempotencyKeysKey)
    case "runtime_evidence" => Some(RuntimeEvidenceKey)
    case "contract_version" => Some(ContractVersionKey)
    case "idempotency_key" => Some(IdempotencyKeyKey)
    case _ => None
  }

  lemma LongNameReadsBack(key: Key, name: string)
    requires LongName(key) == Some(name)
    ensures 15 <= |name| <= 16 && LongKey(name) == Some(key)
  {
  }

  function LongerName(key: Key): Option<string> {
    match key
    case CompletedStageIdsKey => Some("completed_stage_ids")
    case CompletedTaskIdsKey => Some("completed_task_ids")
    case TaskEffectRecordsKey => Some("task_effect_records")
    case SupersedesRunIdKey => Some("supersedes_run_id")
    case ExternalReferenceKey => Some("external_reference")
    case _ => None
  }

  function LongerKey(name: string): Option<Key> {
    match name
    case "completed_stage_ids" => Some(CompletedStageIdsKey)
    case "completed_task_ids" => Some(CompletedTaskIdsKey)
    case "task_effect_records" => Some(TaskEffectRecordsKey)
    case "supersedes_run_id" => Some(SupersedesRunIdKey)
    case "external_reference" => Some(ExternalReferenceKey)
    case _ => None
  }

  lemma LongerNameReadsBack(key: Key, name: string)
    requires LongerName(key) == Some(name)
    ensures 17 <= |name| <= 19 && LongerKey(name) == Some(key)
  {
  }

  function LongestName(key: Key): Option<string> {
    match key
    case ParentCheckpointIdKey => Some("parent_checkpoint_id")
    case ActivationAttemptIdKey => Some("activation_attempt_id")
    case ProposedNextActionKey => Some("proposed_next_action")
    case ExternalStateGuardsKey => Some("external_state_guards")
    case InvalidationReasonsKey => Some("invalidation_reasons")
    case CheckpointSchemaVersionKey => Some("checkpoint_schema_version")
    case _ => None
  }

  function LongestKey(name: string): Option<Key> {
    match name
    case "parent_checkpoint_id" => Some(ParentCheckpointIdKey)
    case "activation_attempt_id" => Some(ActivationAttemptIdKey)
    case "proposed_next_action" => Some(ProposedNextActionKey)
    case "external_state_guards" => Some(ExternalStateGuardsKey)
    case "invalidation_reasons" => Some(InvalidationReasonsKey)
    case "checkpoint_schema_version" => Some(CheckpointSchemaVersionKey)
    case _ => None
  }

  lemma LongestNameReadsBack(key: Key, name: string)
    requires LongestName(key) == Some(name)
    ensures 20 <= |name| && LongestKey(name) == Some(key)
  {
  }

  /** The key as the JSON text spells it. */
  function Name(key: Key): string {
    if ShortName(key).Some? then ShortName(key).value
    else if MediumName(key).Some? then MediumName(key).value
    else if MiddlingName(key).Some? then MiddlingName(key).value
    else if LongName(key).Some? then LongName(key).value
    else if LongerName(key).Some? then LongerName(key).value
    else LongestName(key).GetOr("")
  }

  function KeyNamed(name: string): Option<Key> {
    if |name| <= 8 then ShortKey(name)
    else if |name| <= 11 then MediumKey(name)
    else if |name| <= 14 then MiddlingKey(name)
    else if |name| <= 16 then LongKey(name)
    else if |name| <= 19 then LongerKey(name)
    else LongestKey(name)
  }

  lemma EveryKeyIsNamed(key: Key)
    ensures ShortName(key).Some? || MediumName(key).Some? || MiddlingName(key).Some? || LongName(key).Some?
            || LongerName(key).Some? || LongestName(key).Some?
  {
  }

  /** No two keys have the same name. */
  lemma NameReadsBack(key: Key)
    ensures KeyNamed(Name(key)) == Some(key)
  {
    hide ShortName, MediumName, MiddlingName, LongName, LongerName, LongestName,
         ShortKey, MediumKey, MiddlingKey, LongKey, LongerKey, LongestKey;
    EveryKeyIsNamed(key);
    if ShortName(key).Some? {
      ShortNameReadsBack(key, ShortName(key).value);
    } else if MediumName(key).Some? {
      MediumNameReadsBack(key, MediumName(key).value);
    } else if MiddlingName(key).Some? {
      MiddlingNameReadsBack(key, MiddlingName(key).value);
    } else if LongName(key).Some? {
      LongNameReadsBack(key, LongName(key).value);
    } else if LongerName(key).Some? {
      LongerNameReadsBack(key, LongerName(key).value);
    } else {
      LongestNameReadsBack(key, LongestName(key).value);
    }
  }
}

/**
 * Checkpoint documents: encoding, decoding, and the identity a digest stands for.
 *
 * An object with fixed keys is a record here; the free-form plan and artifact
 * metadata stay maps, which is what key-sorted JSON text preserves of them.
 */
module Codec {
  import opened Text
  import opened PlanValues
  import opened Contracts
  import opened Compatibility

  datatype ArtifactDoc = ArtifactDoc(
    artifactId: string, artifactType: string, digest: string, present: bool,
    version: string, reference: string, metadata: map<string, string>)

  datatype EffectDoc = EffectDoc(
    taskId: string, toolName: string, operationType: string, idempotencyKey: string,
    effectState: string, externalReference: string, evidence: seq<RuntimeEvidence>)

  datatype GuardDoc = GuardDoc(
    resourceId: string, guardType: string, expectedValue: string,
    observedValue: string, checkedAt: string, status: string)

  /** The encoded checkpoint: `body` carries every field whose JSON form is its own value. */
  datatype CheckpointDoc = CheckpointDoc(
    body: RunCheckpoint,
    status: string,
    executionPlan: Value,
    artifacts: seq<ArtifactDoc>,
    proposedNextAction: Option<string>,
    effects: seq<EffectDoc>,
    guards: seq<GuardDoc>)

  datatype CodecError = SchemaMajor | UnknownName(name: string) | BadCheckpoint(error: ContractError)

  // Enumeration names.

  function StatusName(s: CheckpointStatus): string {
    match s
    case Created => "CREATED"
    case Running => "RUNNING"
    case Suspended => "SUSPENDED"
    case WaitingUser => "WAITING_USER"
    case FailedRecoverable => "FAILED_RECOVERABLE"
    case FailedTerminal => "FAILED_TERMINAL"
    case Completed => "COMPLETED"
    case Cancelled => "CANCELLED"
  }

  function ParseStatus(name: string): Option<CheckpointStatus> {
    match name
    case "CREATED" => Some(Created)
    case "RUNNING" => Some(Running)
    case "SUSPENDED" => Some(Suspended)
    case "WAITING_USER" => Some(WaitingUser)
    case "FAILED_RECOVERABLE" => Some(FailedRecoverable)
    case "FAILED_TERMINAL" => Some(FailedTerminal)
    case "COMPLETED" => Some(Completed)
    case "CANCELLED" => Some(Cancelled)
    case _ => None
  }

  function EffectName(s: SideEffectState): string {
    match s
    case NoEffect => "NONE"
    case NotStarted => "NOT_STARTED"
    case Started => "STARTED"
    case Committed => "COMMITTED"
    case FailedBeforeCommit => "FAILED_BEFORE_COMMIT"
    case FailedAfterCommit => "FAILED_AFTER_COMMIT"
    case Compensated => "COMPENSATED"
    case Unknown => "UNKNOWN"
  }

  function ParseEffect(name: string): Option<SideEffectState> {
    match name
    case "NONE" => Some(NoEffect)
    case "NOT_STARTED" => Some(NotStarted)
    case "STARTED" => Some(Started)
    case "COMMITTED" => Some(Committed)
    case "FAILED_BEFORE_COMMIT" => Some(FailedBeforeCommit)
    case "FAILED_AFTER_COMMIT" => Some(FailedAfterCommit)
    case "COMPENSATED" => Some(Compensated)
    case "UNKNOWN" => Some(Unknown)
    case _ => None
  }

  function GuardName(s: GuardStatus): string {
    match s
    case Verified => "VERIFIED"
    case GuardUnknown => "UNKNOWN"
    case Mismatch => "MISMATCH"
    case Missing => "MISSING"
  }

  function ParseGuard(name: string): Option<GuardStatus> {
    match name
    case "VERIFIED" => Some(Verified)
    case "UNKNOWN" => Some(GuardUnknown)
    case "MISMATCH" => Some(Mismatch)
    case "MISSING" => Some(Missing)
    case _ => None
  }

  function ActionName(a: ResumeAction): string {
    match a
    case ResumeExact => "RESUME_EXACT"
    case ReplayFromStage => "REPLAY_FROM_STAGE"
    case ReplanFromCheckpoint => "REPLAN_FROM_CHECKPOINT"
    case AbandonAndRestart => "ABANDON_AND_RESTART"
  }

  function ParseAction(name: string): Option<ResumeAction> {
    match name
    case "RESUME_EXACT" => Some(ResumeExact)
    case "REPLAY_FROM_STAGE" => Some(ReplayFromStage)
    case "REPLAN_FROM_CHECKPOINT" => Some(ReplanFromCheckpoint)
    case "ABANDON_AND_RESTART" => Some(AbandonAndRestart)
    case _ => None
  }

  /** Every enumeration name reads back as the member it was written for. */
  lemma NamesReadBack(s: CheckpointStatus, e: SideEffectState, g: GuardStatus, a: ResumeAction)
    ensures ParseStatus(StatusName(s)) == Some(s) && ParseEffect(EffectName(e)) == Some(e)
    ensures ParseGuard(GuardName(g)) == Some(g) && ParseAction(ActionName(a)) == Some(a)
  {
    match s case _ =>
    match e case _ =>
    match g case _ =>
    match a case _ =>
  }

  // Artifact metadata: a pair list in memory, an object in the document.

  function Keys(pairs: seq<(string, string)>): seq<string> {
    seq(|pairs|, i requires 0 <= i < |pairs| => pairs[i].0)
  }

  /** A later pair overrides an earlier one with the same key. */
  function PairsToMap(pairs: seq<(string, string)>): map<string, string> {
    if pairs == [] then map[]
    else PairsToMap(pairs[..|pairs| - 1])[pairs[|pairs| - 1].0 := pairs[|pairs| - 1].1]
  }

  /** The pairs of `m` as JSON text lists them: by increasing key. */
  function SortedPairs(m: map<string, string>): seq<(string, string)> {
    var keys := Sorted(m.Keys);
    SortedMeaning(m.Keys);
    seq(|keys|, i requires 0 <= i < |keys| => (keys[i], m[keys[i]]))
  }

  lemma {:induction false} PairsToMapMeaning(pairs: seq<(string, string)>)
    ensures forall k :: k in PairsToMap(pairs) <==> k in Keys(pairs)
    ensures NoDuplicates(Keys(pairs)) ==> forall i :: 0 <= i < |pairs| ==> pairs[i].0 in PairsToMap(pairs) && PairsToMap(pairs)[pairs[i].0] == pairs[i].1
  {
    if pairs != [] {
      var front := pairs[..|pairs| - 1];
      PairsToMapMeaning(front);
      assert Keys(pairs) == Keys(front) + [pairs[|pairs| - 1].0];
      if NoDuplicates(Keys(pairs)) {
        forall i | 0 <= i < |front| ensures pairs[i].0 != pairs[|pairs| - 1].0 {
          assert Keys(pairs)[i] != Keys(pairs)[|pairs| - 1];
        }
        assert forall i, j :: 0 <= i < j < |front| ==> Keys(pairs)[i] == Keys(front)[i] && Keys(pairs)[j] == Keys(front)[j];
        assert NoDuplicates(Keys(front));
        assert forall i :: 0 <= i < |front| ==> front[i] == pairs[i];
      }
    }
  }

  lemma SortedPairsMeaning(m: map<string, string>)
    ensures Increasing(Keys(SortedPairs(m)))
    ensures PairsToMap(SortedPairs(m)) == m
  {
    var pairs := SortedPairs(m);
    SortedMeaning(m.Keys);
    assert Keys(pairs) == Sorted(m.Keys);
    PairsToMapMeaning(pairs);
    forall k | k in m ensures k in PairsToMap(pairs) && PairsToMap(pairs)[k] == m[k] {
      assert k in Keys(pairs);
      var i :| 0 <= i < |pairs| && Keys(pairs)[i] == k;
    }
    assert PairsToMap(pairs).Keys == m.Keys;
  }

  /** Metadata survives a document exactly when it was key-sorted and unique. */
  lemma MetadataReadsBack(pairs: seq<(string, string)>)
    ensures SortedPairs(PairsToMap(pairs)) == pairs <==> Increasing(Keys(pairs))
  {
    var m := PairsToMap(pairs);
    SortedPairsMeaning(m);
    if Increasing(Keys(pairs)) {
      PairsToMapMeaning(pairs);
      PairsToMapMeaning(SortedPairs(m));
      IncreasingUnique(Keys(pairs), Keys(SortedPairs(m)));
      forall i | 0 <= i < |pairs| ensures SortedPairs(m)[i] == pairs[i] {
        assert Keys(pairs)[i] == pairs[i].0 == SortedPairs(m)[i].0;
      }
    }
  }

  // Encoding and decoding.

  function EncodeArtifact(a: ArtifactSnapshot): ArtifactDoc {
    ArtifactDoc(a.artifactId, a.artifactType, a.digest, a.present, a.version, a.reference, PairsToMap(a.metadata))
  }

  function DecodeArtifact(d: ArtifactDoc): ArtifactSnapshot {
    ArtifactSnapshot(d.artifactId, d.artifactType, d.digest, d.present, d.version, d.reference, SortedPairs(d.metadata))
  }

  function EncodeEffect(r: TaskEffectRecord): EffectDoc {
    EffectDoc(r.taskId, r.toolName, r.operationType, r.idempotencyKey, EffectName(r.effectState), r.externalReference, r.evidence)
  }

  function EncodeGuard(g: ExternalStateGuard): GuardDoc {
    GuardDoc(g.resourceId, g.guardType, g.expectedValue, g.observedValue, g.checkedAt, GuardName(g.status))
  }

  /** The fields carried by the other parts of a document, blanked so that a document holds each fact once. */
  function Body(c: RunCheckpoint): RunCheckpoint {
    c.(status := Created, executionPlan := Null, artifacts := [], proposedNextAction := None,
       taskEffectRecords := [], externalStateGuards := [])
  }

  function Encode(c: RunCheckpoint): CheckpointDoc {
    CheckpointDoc(
      Body(c),
      StatusName(c.status),
      Thaw(c.executionPlan),
      seq(|c.artifacts|, i requires 0 <= i < |c.artifacts| => EncodeArtifact(c.artifacts[i])),
      if c.proposedNextAction.Some? then Some(ActionName(c.proposedNextAction.value)) else None,
      seq(|c.taskEffectRecords|, i requires 0 <= i < |c.taskEffectRecords| => EncodeEffect(c.taskEffectRecords[i])),
      seq(|c.externalStateGuards|, i requires 0 <= i < |c.externalStateGuards| => EncodeGuard(c.externalStateGuards[i])))
  }

  predicate NamesKnown(d: CheckpointDoc) {
    && ParseStatus(d.status).Some?
    && (d.proposedNextAction.Some? ==> ParseAction(d.proposedNextAction.value).Some?)
    && (forall i | 0 <= i < |d.effects| :: ParseEffect(d.effects[i].effectState).Some?)
    && (forall i | 0 <= i < |d.guards| :: ParseGuard(d.guards[i].status).Some?)
  }

  function Rebuild(d: CheckpointDoc): RunCheckpoint
    requires NamesKnown(d)
  {
    d.body.(
      status := ParseStatus(d.status).value,
      executionPlan := d.executionPlan,
      artifacts := seq(|d.artifacts|, i requires 0 <= i < |d.artifacts| => DecodeArtifact(d.artifacts[i])),
      proposedNextAction := if d.proposedNextAction.Some? then ParseAction(d.proposedNextAction.value) else None,
      taskEffectRecords := seq(|d.effects|, i requires 0 <= i < |d.effects| =>
        var e := d.effects[i];
        TaskEffectRecord(e.taskId, e.toolName, e.operationType, e.idempotencyKey, ParseEffect(e.effectState).value, e.externalReference, e.evidence)),
      externalStateGuards := seq(|d.guards|, i requires 0 <= i < |d.guards| =>
        var g := d.guards[i];
        ExternalStateGuard(g.resourceId, g.guardType, g.expectedValue, g.observedValue, g.checkedAt, ParseGuard(g.status).value)))
  }

  function Decode(d: CheckpointDoc, expectedSchema: string): Result<RunCheckpoint, CodecError> {
    if MajorVersion(d.body.schemaVersion) != MajorVersion(expectedSchema) then Failure(SchemaMajor)
    else if !NamesKnown(d) then Failure(UnknownName(d.status))
    else
      match Construct(Rebuild(d))
      case Failure(e) => Failure(BadCheckpoint(e))
      case Success(c) => Success(c)
  }

  /** Digests are compared through the document they hash. */
  function Digest(c: RunCheckpoint): CheckpointDoc {
    Encode(c)
  }

  ghost predicate CanonicalArtifacts(artifacts: seq<ArtifactSnapshot>) {
    forall i | 0 <= i < |artifacts| :: Increasing(Keys(artifacts[i].metadata))
  }

  /** The checkpoints the recorder builds: no frozen set in the plan, metadata key-sorted and unique. */
  ghost predicate Canonical(c: RunCheckpoint) {
    !HasFrozenSet(c.executionPlan) && CanonicalArtifacts(c.artifacts)
  }

  function CanonicalArtifact(a: ArtifactSnapshot): ArtifactSnapshot {
    a.(metadata := SortedPairs(PairsToMap(a.metadata)))
  }

  /** What a stored document remembers of `c`. */
  function Canonicalise(c: RunCheckpoint): RunCheckpoint
    requires Freeze(Thaw(c.executionPlan)).Some?
  {
    c.(executionPlan := Freeze(Thaw(c.executionPlan)).value,
       artifacts := seq(|c.artifacts|, i requires 0 <= i < |c.artifacts| => CanonicalArtifact(c.artifacts[i])))
  }

  lemma RebuildEncoded(c: RunCheckpoint)
    ensures NamesKnown(Encode(c))
    ensures Rebuild(Encode(c)) == c.(executionPlan := Thaw(c.executionPlan),
                                     artifacts := Rebuild(Encode(c)).artifacts)
    ensures Rebuild(Encode(c)).artifacts ==
            seq(|c.artifacts|, i requires 0 <= i < |c.artifacts| => CanonicalArtifact(c.artifacts[i]))
  {
    var d := Encode(c);
    NamesReadBack(c.status, NoEffect, Verified, c.proposedNextAction.GetOr(ResumeExact));
    forall i | 0 <= i < |d.effects| ensures ParseEffect(d.effects[i].effectState) == Some(c.taskEffectRecords[i].effectState) {
      NamesReadBack(Created, c.taskEffectRecords[i].effectState, Verified, ResumeExact);
    }
    forall i | 0 <= i < |d.guards| ensures ParseGuard(d.guards[i].status) == Some(c.externalStateGuards[i].status) {
      NamesReadBack(Created, NoEffect, c.externalStateGuards[i].status, ResumeExact);
    }
    assert Rebuild(d).taskEffectRecords == c.taskEffectRecords;
    assert Rebuild(d).externalStateGuards == c.externalStateGuards;
    assert Rebuild(d).artifacts == seq(|c.artifacts|, i requires 0 <= i < |c.artifacts| => CanonicalArtifact(c.artifacts[i]));
  }

  /** Decoding an encoded checkpoint succeeds exactly when the schema major fits, and yields its canonical form. */
  lemma DecodeEncoded(c: RunCheckpoint, expectedSchema: string)
    requires WellFormed(c)
    ensures Freeze(Thaw(c.executionPlan)).Some?
    ensures Decode(Encode(c), expectedSchema) ==
            if MajorVersion(c.schemaVersion) == MajorVersion(expectedSchema) then Success(Canonicalise(c)) else Failure(SchemaMajor)
  {
    FreezeUndoesThaw(c.executionPlan);
    ThawUndoesFreeze(Thaw(c.executionPlan));
    RebuildEncoded(c);
    var raw := Rebuild(Encode(c));
    LineageFaultMeaning(c);
    assert LineageFault(raw).None?;
    var k := Canonicalise(c);
    NonBlankMeaning(c.completedStageIds);
    NonBlankMeaning(c.completedTaskIds);
    NonBlankMeaning(c.idempotencyKeys);
    NonBlankMeaning(c.invalidationReasons);
    assert Normalise(raw, Freeze(raw.executionPlan).value) == k;
    assert ListFault(k).None?;
  }

  /** Decode after Encode is the identity exactly on canonical checkpoints of a compatible schema. */
  lemma DecodeEncodeIdentity(c: RunCheckpoint, expectedSchema: string)
    requires WellFormed(c)
    ensures Decode(Encode(c), expectedSchema) == Success(c) <==>
            MajorVersion(c.schemaVersion) == MajorVersion(expectedSchema) && Canonical(c)
  {
    DecodeEncoded(c, expectedSchema);
    FreezeUndoesThaw(c.executionPlan);
    var k := Canonicalise(c);
    forall i | 0 <= i < |c.artifacts| ensures CanonicalArtifact(c.artifacts[i]) == c.artifacts[i] <==> Increasing(Keys(c.artifacts[i].metadata)) {
      MetadataReadsBack(c.artifacts[i].metadata);
    }
    if Canonical(c) {
      assert k.artifacts == c.artifacts;
    } else if k == c {
      forall i | 0 <= i < |c.artifacts| ensures Increasing(Keys(c.artifacts[i].metadata)) {
        assert k.artifacts[i] == c.artifacts[i];
      }
    }
  }

  /** Re-encoding what was decoded gives the same document, so digests are stable. */
  lemma ReencodeIsStable(c: RunCheckpoint, expectedSchema: string)
    requires WellFormed(c)
    requires Decode(Encode(c), expectedSchema).Success?
    ensures WellFormed(Decode(Encode(c), expectedSchema).value) && Canonical(Decode(Encode(c), expectedSchema).value)
    ensures Encode(Decode(Encode(c), expectedSchema).value) == Encode(c)
  {
    DecodeEncoded(c, expectedSchema);
    var k := Canonicalise(c);
    ConstructAccepts(Rebuild(Encode(c)));
    FreezeUndoesThaw(c.executionPlan);
    ThawUndoesFreeze(Thaw(c.executionPlan));
    forall i | 0 <= i < |c.artifacts|
      ensures EncodeArtifact(k.artifacts[i]) == EncodeArtifact(c.artifacts[i]) && Increasing(Keys(k.artifacts[i].metadata))
    {
      SortedPairsMeaning(PairsToMap(c.artifacts[i].metadata));
    }
    assert Encode(k).artifacts == Encode(c).artifacts;
    assert Encode(k).effects == Encode(c).effects;
    assert Encode(k).guards == Encode(c).guards;
    assert Body(k) == Body(c);
  }

  /** Among canonical checkpoints, equal digests mean equal checkpoints. */
  lemma DigestIdentifies(a: RunCheckpoint, b: RunCheckpoint)
    requires WellFormed(a) && WellFormed(b) && Canonical(a) && Canonical(b)
    ensures Digest(a) == Digest(b) <==> a == b
  {
    DecodeEncodeIdentity(a, a.schemaVersion);
    DecodeEncodeIdentity(b, b.schemaVersion);
    if Digest(a) == Digest(b) {
      assert a.schemaVersion == Encode(a).body.schemaVersion == Encode(b).body.schemaVersion == b.schemaVersion;
    }
  }
}

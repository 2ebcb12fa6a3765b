/** What may be remembered, and the one versioned row it is remembered in. */
module Memory {
  import opened Text

  datatype Scope = SessionScope | UserScope | RepositoryScope

  datatype MemoryType = Fact | Preference | Summary | Resolution

  datatype Action = Store | Update | Ignore

  datatype SourceKind =
    | UserRequest | AssistantOutput | RepositoryObservation | RunArtifact
    | UserStatement | ConfirmedResolution | OtherSource(text: string)

  datatype MemoryAction = NoAction | Remember | Forget | OtherAction(text: string)

  datatype Reason =
    | SecretNeverStore | VolatileObservation | DeleteOwnedByLifecycle | NoPersistableEvidence | ConflictUnconfirmed
    | AssistantOutputNotEvidence | AssistantInference | RepositoryIndexOutOfScope | RunFactNotUserMemory
    | ScopeWideningDenied | MemoryTypeNotAllowed | SourceNotAuthorized | PersistenceNotAuthorized
    | SensitiveWithoutExplicitPersistence | InvalidEvidence | DuplicateSameValue
    | ProviderProposedIgnore | ProviderProposalRejected
    | ExplicitValueUpdate | ConfirmedResolutionStored | ExplicitProjectPreference | ExplicitRepositoryFact
    | ExplicitSessionPreference | NewCanonicalFact | ExplicitUserPreference | ExplicitUserFact | ExplicitSensitivePersistence

  datatype ExistingMemory = ExistingMemory(scope: Scope, canonicalKey: string, value: string)

  datatype ResolutionEvidence = ResolutionEvidence(utterance: string, kind: string, metadata: map<string, string>)

  datatype Provenance = Provenance(evidenceId: string, sourceKind: SourceKind, sourceRef: string)

  datatype Evidence = Evidence(
    provenance: Provenance,
    text: string,
    memoryType: MemoryType,
    requestedScope: Scope,
    canonicalKey: string,
    value: string,
    explicitPersist: bool,
    sensitive: bool,
    secret: bool,
    volatile: bool,
    memoryAction: MemoryAction,
    existing: Option<ExistingMemory>,
    resolution: Option<ResolutionEvidence>)
  {
    /** What the constructor demands of the text fields. */
    predicate Valid() {
      && Strip(provenance.evidenceId) != "" && Strip(provenance.sourceRef) != "" && Strip(text) != ""
      && (resolution.Some? ==> memoryType == Resolution)
    }
  }

  datatype Policy = Policy(
    scope: Scope, namespace: string, allowPersist: bool, allowedTypes: set<MemoryType>, sources: set<SourceKind>)

  /** The regular expressions of the policy, as predicates on the text they search. */
  datatype Classifiers = Classifiers(
    secretField: string -> bool, secretValue: string -> bool,
    sensitiveField: string -> bool, sensitiveValue: string -> bool, genericField: string -> bool,
    volatileField: string -> bool, asksToForget: string -> bool, asksToKeep: string -> bool)

  /** What a decision other than IGNORE writes. */
  datatype Write = Write(memoryType: MemoryType, scope: Scope, canonicalKey: string, value: string, provenance: Provenance)

  datatype Decision = Decision(action: Action, write: Option<Write>, reason: Reason, resolution: Option<ResolutionEvidence>) {
    /** The constructor's invariants. */
    predicate Valid() {
      if action == Ignore then write == None && resolution == None
      else
        && write.Some? && Strip(write.value.canonicalKey) != "" && Strip(write.value.value) != ""
        && Strip(write.value.provenance.evidenceId) != "" && Strip(write.value.provenance.sourceRef) != ""
        && (resolution.Some? ==> write.value.memoryType == Resolution)
    }
  }

  function Ignoring(reason: Reason): Decision { Decision(Ignore, None, reason, None) }

  // The policy.

  predicate Secret(e: Evidence, c: Classifiers) { e.secret || c.secretField(e.canonicalKey) || c.secretValue(e.value) }

  predicate Sensitive(e: Evidence, c: Classifiers) {
    e.sensitive || c.sensitiveField(e.canonicalKey) || c.sensitiveValue(e.value)
    || (c.genericField(e.canonicalKey) && c.sensitiveField(e.text))
  }

  predicate Volatile(e: Evidence, c: Classifiers) { e.volatile || c.volatileField(e.canonicalKey) }

  function SourceRejection(e: Evidence, c: Classifiers): Option<Reason> {
    match e.provenance.sourceKind
    case UserRequest => Some(if e.memoryAction == Forget || c.asksToForget(e.text) then DeleteOwnedByLifecycle else NoPersistableEvidence)
    case AssistantOutput =>
      Some(if e.existing.Some? then ConflictUnconfirmed
           else if e.memoryType == Summary then AssistantOutputNotEvidence
           else AssistantInference)
    case RepositoryObservation => Some(RepositoryIndexOutOfScope)
    case RunArtifact => Some(RunFactNotUserMemory)
    case UserStatement => None
    case ConfirmedResolution => None
    case OtherSource(_) => None
  }

  function StoreReason(e: Evidence, p: Policy, c: Classifiers): Reason {
    if Sensitive(e, c) then ExplicitSensitivePersistence
    else if e.memoryType == Resolution then ConfirmedResolutionStored
    else if p.scope == RepositoryScope && e.memoryType == Preference then ExplicitProjectPreference
    else if p.scope == RepositoryScope then ExplicitRepositoryFact
    else if p.scope == SessionScope then ExplicitSessionPreference
    else if e.memoryType == Preference && e.memoryAction != Remember && !c.asksToKeep(e.text) then NewCanonicalFact
    else if e.memoryType == Preference then ExplicitUserPreference
    else ExplicitUserFact
  }

  /** `decide_memory_learning`. */
  function Decide(e: Evidence, p: Policy, c: Classifiers): Decision {
    if Secret(e, c) then Ignoring(SecretNeverStore)
    else if Volatile(e, c) then Ignoring(VolatileObservation)
    else if SourceRejection(e, c).Some? then Ignoring(SourceRejection(e, c).value)
    else if e.requestedScope != p.scope then Ignoring(ScopeWideningDenied)
    else if e.memoryType !in p.allowedTypes then Ignoring(MemoryTypeNotAllowed)
    else if e.provenance.sourceKind !in p.sources then Ignoring(SourceNotAuthorized)
    else if !p.allowPersist then Ignoring(PersistenceNotAuthorized)
    else if Sensitive(e, c) && !e.explicitPersist then Ignoring(SensitiveWithoutExplicitPersistence)
    else if !e.explicitPersist then Ignoring(NoPersistableEvidence)
    else if Strip(e.canonicalKey) == "" || Strip(e.value) == "" then Ignoring(InvalidEvidence)
    else if e.existing.Some? && (e.existing.value.scope != p.scope || e.existing.value.canonicalKey != e.canonicalKey) then
      Ignoring(ScopeWideningDenied)
    else if e.existing.Some? && e.existing.value.value == e.value then Ignoring(DuplicateSameValue)
    else
      Decision(
        if e.existing.Some? then Update else Store,
        Some(Write(e.memoryType, p.scope, Strip(e.canonicalKey), Strip(e.value), e.provenance)),
        if e.existing.Some? then ExplicitValueUpdate else StoreReason(e, p, c),
        if e.memoryType == Resolution then e.resolution else None)
  }

  /** Order-free: what evidence is learned. */
  predicate Learnable(e: Evidence, p: Policy, c: Classifiers) {
    && !Secret(e, c) && !Volatile(e, c) && e.explicitPersist
    && e.provenance.sourceKind !in {UserRequest, AssistantOutput, RepositoryObservation, RunArtifact}
    && e.provenance.sourceKind in p.sources && p.allowPersist
    && e.requestedScope == p.scope && e.memoryType in p.allowedTypes
    && Strip(e.canonicalKey) != "" && Strip(e.value) != ""
    && (e.existing.Some? ==>
          e.existing.value.scope == p.scope && e.existing.value.canonicalKey == e.canonicalKey && e.existing.value.value != e.value)
  }

  /** The policy writes exactly the learnable evidence, and its decisions meet the decision's own invariants. */
  lemma PolicyMeaning(e: Evidence, p: Policy, c: Classifiers)
    requires e.Valid()
    ensures Decide(e, p, c).action != Ignore <==> Learnable(e, p, c)
    ensures Decide(e, p, c).action == Update <==> Learnable(e, p, c) && e.existing.Some?
    ensures Decide(e, p, c).Valid()
  {
    hide Secret, Volatile, Sensitive, StoreReason;
    StripTwice(e.canonicalKey);
    StripTwice(e.value);
  }

  /** `authorize_memory_learning_proposal`. */
  function Authorize(e: Evidence, p: Policy, c: Classifiers, proposal: Decision): Decision {
    var authorized := Decide(e, p, c);
    if authorized.action == Ignore then authorized
    else if proposal.action == Ignore then Ignoring(ProviderProposedIgnore)
    else if proposal.action != authorized.action || proposal.write != authorized.write then Ignoring(ProviderProposalRejected)
    else authorized
  }

  /** Whatever a provider proposes, the outcome is the policy's own decision or none, and a write needs the proposal's full agreement. */
  lemma ProviderOnlyVetoes(e: Evidence, p: Policy, c: Classifiers, proposal: Decision)
    ensures Authorize(e, p, c, proposal).action == Ignore || Authorize(e, p, c, proposal) == Decide(e, p, c)
    ensures Authorize(e, p, c, proposal).action != Ignore <==>
            Decide(e, p, c).action != Ignore && proposal.action == Decide(e, p, c).action && proposal.write == Decide(e, p, c).write
  {
  }

  // The fact table.

  datatype RowKey = RowKey(user: string, scope: Scope, category: string, key: string)

  datatype Row = Row(id: nat, at: RowKey, value: string, provenance: Provenance, revision: nat)

  datatype Table = Table(rows: seq<Row>, nextId: nat)

  /** One call of the fact store. */
  datatype Request = Request(at: RowKey, value: string, action: Action, provenance: Provenance)

  /** What a store answers a write with; a store other than the fact table may keep no revision. */
  datatype Receipt = Receipt(recordId: nat, revision: Option<nat>)

  datatype StoreError = EmptyValue | AlreadyExists | KeyWithoutCategory | ScopeMismatch | NoResolution | Elsewhere(message: string)

  function Position(rows: seq<Row>, k: RowKey): (r: Option<nat>)
    ensures r.Some? ==> r.value < |rows| && rows[r.value].at == k
    ensures r.None? <==> forall i :: 0 <= i < |rows| ==> rows[i].at != k
  {
    if rows == [] then None
    else if rows[|rows| - 1].at == k then Some(|rows| - 1)
    else Position(rows[..|rows| - 1], k)
  }

  /** The row already holds this value from this very evidence. */
  predicate Redelivered(row: Row, r: Request) {
    row.provenance.evidenceId == r.provenance.evidenceId && row.value == Strip(r.value)
  }

  function Persist(t: Table, r: Request): (Table, Result<Receipt, StoreError>) {
    var value := Strip(r.value);
    if value == "" then (t, Failure(EmptyValue))
    else
      match Position(t.rows, r.at)
      case None =>
        (Table(t.rows + [Row(t.nextId, r.at, value, r.provenance, 1)], t.nextId + 1), Success(Receipt(t.nextId, Some(1))))
      case Some(i) =>
        var row := t.rows[i];
        if Redelivered(row, r) then (t, Success(Receipt(row.id, Some(row.revision))))
        else if r.action != Update then (t, Failure(AlreadyExists))
        else
          (t.(rows := t.rows[i := Row(row.id, row.at, value, r.provenance, row.revision + 1)]),
           Success(Receipt(row.id, Some(row.revision + 1))))
  }

  ghost predicate OneRowPerKey(rows: seq<Row>) {
    forall i, j :: 0 <= i < j < |rows| ==> rows[i].at != rows[j].at && rows[i].id < rows[j].id
  }

  class FactTable {
    var rows: seq<Row>
    var nextId: nat

    constructor ()
      ensures rows == [] && nextId == 1
    {
      rows, nextId := [], 1;
    }

    /** `_persist_fact`: the versioned row update. */
    method PersistFact(r: Request) returns (outcome: Result<Receipt, StoreError>)
      modifies this
      ensures (Table(rows, nextId), outcome) == Persist(old(Table(rows, nextId)), r)
    {
      var value := Strip(r.value);
      if value == "" {
        return Failure(EmptyValue);
      }
      var found := Position(rows, r.at);
      if found.Some? {
        var row := rows[found.value];
        if row.provenance.evidenceId == r.provenance.evidenceId && row.value == value {
          return Success(Receipt(row.id, Some(row.revision)));
        }
        if r.action != Update {
          return Failure(AlreadyExists);
        }
        var revision := row.revision + 1;
        rows := rows[found.value := row.(value := value, provenance := r.provenance, revision := revision)];
        return Success(Receipt(row.id, Some(revision)));
      }
      rows := rows + [Row(nextId, r.at, value, r.provenance, 1)];
      nextId := nextId + 1;
      return Success(Receipt(nextId - 1, Some(1)));
    }
  }

  function After(requests: seq<Request>): Table {
    if requests == [] then Table([], 1) else Persist(After(requests[..|requests| - 1]), requests[|requests| - 1]).0
  }

  /** The request rewrites an existing row. */
  predicate Changes(t: Table, r: Request) {
    Strip(r.value) != "" && r.action == Update && Position(t.rows, r.at).Some? && !Redelivered(t.rows[Position(t.rows, r.at).value], r)
  }

  function Updates(requests: seq<Request>, k: RowKey): nat {
    if requests == [] then 0
    else
      var last := requests[|requests| - 1];
      Updates(requests[..|requests| - 1], k) + if last.at == k && Changes(After(requests[..|requests| - 1]), last) then 1 else 0
  }

  /** The row of a key counts the updates that changed it; a key without a row was never updated. */
  ghost predicate CountedAt(t: Table, requests: seq<Request>, k: RowKey) {
    match Position(t.rows, k)
    case None => Updates(requests, k) == 0
    case Some(i) => t.rows[i].revision == 1 + Updates(requests, k)
  }

  ghost predicate SoundTable(t: Table) {
    OneRowPerKey(t.rows) && forall i :: 0 <= i < |t.rows| ==> t.rows[i].id < t.nextId
  }

  lemma PositionIs(rows: seq<Row>, i: nat)
    requires OneRowPerKey(rows) && i < |rows|
    ensures Position(rows, rows[i].at) == Some(i)
  {
  }

  lemma PersistKeepsSound(t: Table, r: Request)
    requires SoundTable(t)
    ensures SoundTable(Persist(t, r).0)
  {
  }

  lemma PositionOfAbsent(rows: seq<Row>, k: RowKey)
    requires forall i :: 0 <= i < |rows| ==> rows[i].at != k
    ensures Position(rows, k) == None
  {
  }

  /** A request leaves the other keys' rows where and as they are. */
  lemma OtherRowsStay(t: Table, r: Request, k: RowKey)
    requires SoundTable(t) && k != r.at
    ensures var e := Persist(t, r).0;
            && Position(e.rows, k) == Position(t.rows, k)
            && (Position(t.rows, k).Some? ==> e.rows[Position(t.rows, k).value] == t.rows[Position(t.rows, k).value])
  {
    hide Strip, Redelivered, Position;
    var e := Persist(t, r).0;
    PersistKeepsSound(t, r);
    hide OneRowPerKey;
    if Position(t.rows, k).Some? {
      PositionIs(e.rows, Position(t.rows, k).value);
    } else {
      PositionOfAbsent(e.rows, k);
    }
  }

  /** A request finds its own key's row where it was, or appends it. */
  lemma OwnRowStays(t: Table, r: Request)
    requires SoundTable(t)
    ensures var e := Persist(t, r).0;
            && (Position(t.rows, r.at).Some? ==> Position(e.rows, r.at) == Position(t.rows, r.at))
            && (Position(t.rows, r.at).None? && Strip(r.value) != "" ==> Position(e.rows, r.at) == Some(|t.rows|))
  {
    hide Strip, Redelivered, Position;
    var e := Persist(t, r).0;
    PersistKeepsSound(t, r);
    hide OneRowPerKey;
    if Position(t.rows, r.at).Some? {
      PositionIs(e.rows, Position(t.rows, r.at).value);
    } else if |e.rows| > |t.rows| {
      PositionIs(e.rows, |t.rows|);
    }
  }

  /** Over any run there is one row per key, and its revision is one more than the updates that changed it. */
  lemma {:induction false} RevisionsCountUpdates(requests: seq<Request>, k: RowKey)
    ensures SoundTable(After(requests)) && CountedAt(After(requests), requests, k)
  {
    if requests != [] {
      var front, last := requests[..|requests| - 1], requests[|requests| - 1];
      RevisionsCountUpdates(front, k);
      PersistKeepsSound(After(front), last);
      if k == last.at { OwnRowStays(After(front), last); } else { OtherRowsStay(After(front), last, k); }
    }
  }

  /** Delivering the same request again at once changes nothing and returns the same receipt. */
  lemma RedeliveryIsNoOp(t: Table, r: Request)
    requires OneRowPerKey(t.rows) && Persist(t, r).1.Success?
    ensures Persist(Persist(t, r).0, r) == Persist(t, r)
  {
    var e := Persist(t, r).0;
    var i := Position(t.rows, r.at);
    if i.Some? {
      assert e.rows[i.value].at == r.at;
    } else {
      assert e.rows[|t.rows|].at == r.at;
    }
  }

  /** A stored value can be read back under its key, with its provenance. */
  lemma PersistedIsThere(t: Table, r: Request)
    requires OneRowPerKey(t.rows) && Persist(t, r).1.Success?
    ensures var e := Persist(t, r).0;
            var i := Position(e.rows, r.at);
            && i.Some? && e.rows[i.value].value == Strip(r.value) && e.rows[i.value].provenance.evidenceId == r.provenance.evidenceId
            && Persist(t, r).1 == Success(Receipt(e.rows[i.value].id, Some(e.rows[i.value].revision)))
  {
    RedeliveryIsNoOp(t, r);
  }

  // Committing a decision.

  /** `canonical_key.split(".", 1)`: the text before the first dot and the text after it. */
  function SplitKey(s: string): (r: Option<(string, string)>)
    ensures r.Some? <==> '.' in s
    ensures r.Some? ==> s == r.value.0 + "." + r.value.1 && '.' !in r.value.0
  {
    if s == "" then None
    else if s[0] == '.' then Some(("", s[1..]))
    else
      match SplitKey(s[1..])
      case Some((category, key)) => Some(([s[0]] + category, key))
      case None => None
  }

  datatype StoreName = NoStore | UserFacts | LongTermMemory | ResolutionMemory

  /** What was written, as the evidence shows it. */
  datatype Content =
    | FactContent(value: string) | SummaryContent(summary: string)
    | ResolutionContent(utterance: string, target: string, kind: string, metadata: map<string, string>)

  /** The durable result of one decision. */
  datatype Commitment = Commitment(
    committed: bool, action: Action, store: StoreName, scope: Option<Scope>, canonicalKey: string, evidenceId: string,
    reason: Reason, receipt: Option<Receipt>, error: Option<StoreError>, content: Option<Content>)

  /** A decision that never reached a store. */
  function NotWritten(d: Decision, reason: Reason, error: Option<StoreError>): Commitment {
    match d.write
    case None => Commitment(false, d.action, NoStore, None, "", "", reason, None, error, None)
    case Some(w) => Commitment(false, d.action, NoStore, Some(w.scope), w.canonicalKey, w.provenance.evidenceId, reason, None, error, None)
  }

  function ContentOf(d: Decision): Option<Content> {
    match d.write
    case None => None
    case Some(w) =>
      match w.memoryType
      case Fact => Some(FactContent(w.value))
      case Preference => Some(FactContent(w.value))
      case Summary => Some(SummaryContent(w.value))
      case Resolution =>
        if d.resolution.None? then None
        else Some(ResolutionContent(d.resolution.value.utterance, w.value, d.resolution.value.kind, d.resolution.value.metadata))
  }

  /** What a store answered, with the content exactly when it was written. */
  function Written(d: Decision, store: StoreName, outcome: Result<Receipt, StoreError>): Commitment
    requires d.write.Some?
  {
    var w := d.write.value;
    match outcome
    case Success(receipt) =>
      Commitment(true, d.action, store, Some(w.scope), w.canonicalKey, w.provenance.evidenceId, d.reason, Some(receipt), None, ContentOf(d))
    case Failure(error) =>
      Commitment(false, d.action, store, Some(w.scope), w.canonicalKey, w.provenance.evidenceId, d.reason, None, Some(error), None)
  }

  function RequestOf(d: Decision, p: Policy): Request
    requires d.write.Some? && '.' in d.write.value.canonicalKey
  {
    var w := d.write.value;
    var (category, key) := SplitKey(w.canonicalKey).value;
    Request(RowKey(p.namespace, w.scope, category, key), w.value, d.action, w.provenance)
  }

  predicate IsFact(d: Decision) { d.write.Some? && (d.write.value.memoryType == Fact || d.write.value.memoryType == Preference) }

  /** `MemoryPersistenceBoundary.commit`; the summary and resolution stores answer from `elsewhere`. */
  function Commit(t: Table, d: Decision, p: Policy, elsewhere: Result<Receipt, StoreError>): (Table, Commitment)
    requires d.Valid()
  {
    if d.action == Ignore then (t, NotWritten(d, d.reason, None))
    else
      var w := d.write.value;
      if w.scope != p.scope then (t, NotWritten(d, ScopeWideningDenied, Some(ScopeMismatch)))
      else if !IsFact(d) then
        var store := if w.memoryType == Summary then LongTermMemory else ResolutionMemory;
        (t, Written(d, store, if w.memoryType == Resolution && d.resolution.None? then Failure(NoResolution) else elsewhere))
      else if '.' !in w.canonicalKey then (t, Written(d, UserFacts, Failure(KeyWithoutCategory)))
      else
        var (after, outcome) := Persist(t, RequestOf(d, p));
        (after, Written(d, UserFacts, outcome))
  }

  /** The policy saw the row that is really there: an existing value exactly when the key has a row. */
  predicate FaithfulProjection(t: Table, e: Evidence, p: Policy) {
    '.' in Strip(e.canonicalKey) ==>
      var (category, key) := SplitKey(Strip(e.canonicalKey)).value;
      (e.existing.Some? <==> Position(t.rows, RowKey(p.namespace, p.scope, category, key)).Some?)
  }

  /** On a faithful projection, an authorized fact is committed exactly when its key has a category. */
  lemma AuthorizedFactsCommit(
    t: Table, e: Evidence, p: Policy, c: Classifiers, proposal: Decision, elsewhere: Result<Receipt, StoreError>)
    requires e.Valid() && FaithfulProjection(t, e, p)
    requires Authorize(e, p, c, proposal).action != Ignore && IsFact(Authorize(e, p, c, proposal))
    ensures Authorize(e, p, c, proposal).Valid()
    ensures Commit(t, Authorize(e, p, c, proposal), p, elsewhere).1.committed <==> '.' in e.canonicalKey
  {
    hide Strip, SplitKey, Secret, Volatile, Sensitive, StoreReason;
    PolicyMeaning(e, p, c);
    StripTwice(e.value);
    StripKeepsDots(e.canonicalKey);
  }

  /** From evidence to row: on a faithful projection a learnable fact ends up under its own key with its own value and evidence. */
  lemma LearnedFactIsStored(t: Table, e: Evidence, p: Policy, c: Classifiers, elsewhere: Result<Receipt, StoreError>)
    requires e.Valid() && FaithfulProjection(t, e, p) && SoundTable(t)
    requires Learnable(e, p, c) && (e.memoryType == Fact || e.memoryType == Preference) && '.' in Strip(e.canonicalKey)
    ensures Decide(e, p, c).Valid()
    ensures var after := Commit(t, Decide(e, p, c), p, elsewhere).0;
            var (category, key) := SplitKey(Strip(e.canonicalKey)).value;
            var i := Position(after.rows, RowKey(p.namespace, p.scope, category, key));
            i.Some? && after.rows[i.value].value == Strip(e.value) && after.rows[i.value].provenance.evidenceId == e.provenance.evidenceId
  {
    PolicyMeaning(e, p, c);
    StripKeepsDots(e.canonicalKey);
    StripTwice(e.value);
    var d := Decide(e, p, c);
    assert Authorize(e, p, c, d) == d;
    AuthorizedFactsCommit(t, e, p, c, d, elsewhere);
    hide Secret, Volatile, Sensitive, SourceRejection, StoreReason, Strip;
    CommittedFactIsStored(t, d, p, elsewhere);
  }

  lemma {:induction false} StripLeftKeepsDots(s: string)
    ensures '.' in StripLeft(s) <==> '.' in s
  {
    if s != "" && IsSpace(s[0]) {
      StripLeftKeepsDots(s[1..]);
      assert s == [s[0]] + s[1..];
    }
  }

  lemma {:induction false} StripRightKeepsDots(s: string)
    ensures '.' in StripRight(s) <==> '.' in s
  {
    if s != "" && IsSpace(s[|s| - 1]) {
      StripRightKeepsDots(s[..|s| - 1]);
      assert s == s[..|s| - 1] + [s[|s| - 1]];
    }
  }

  lemma StripKeepsDots(s: string)
    ensures '.' in Strip(s) <==> '.' in s
  {
    StripLeftKeepsDots(s);
    StripRightKeepsDots(StripLeft(s));
  }

  /** What a committed fact leaves behind: its value under its key, and a second delivery that changes nothing. */
  lemma CommittedFactIsStored(t: Table, d: Decision, p: Policy, elsewhere: Result<Receipt, StoreError>)
    requires d.Valid() && IsFact(d) && SoundTable(t) && Commit(t, d, p, elsewhere).1.committed
    ensures '.' in d.write.value.canonicalKey
    ensures var after := Commit(t, d, p, elsewhere).0;
            && SoundTable(after)
            && Commit(after, d, p, elsewhere) == Commit(t, d, p, elsewhere)
            && (var i := Position(after.rows, RequestOf(d, p).at);
                i.Some? && after.rows[i.value].value == Strip(d.write.value.value)
                && after.rows[i.value].provenance.evidenceId == d.write.value.provenance.evidenceId)
  {
    var r := RequestOf(d, p);
    PersistKeepsSound(t, r);
    RedeliveryIsNoOp(t, r);
    PersistedIsThere(t, r);
  }

  /** The projection matters: evidence that hides an existing row is refused by the store, unless it is a redelivery. */
  lemma HiddenRowIsNotOverwritten(t: Table, d: Decision, p: Policy, elsewhere: Result<Receipt, StoreError>)
    requires d.Valid() && IsFact(d) && d.action == Store && d.write.value.scope == p.scope && '.' in d.write.value.canonicalKey
    requires Position(t.rows, RequestOf(d, p).at).Some?
    ensures Commit(t, d, p, elsewhere).0 == t
    ensures Commit(t, d, p, elsewhere).1.committed <==>
            Redelivered(t.rows[Position(t.rows, RequestOf(d, p).at).value], RequestOf(d, p))
  {
    var r := RequestOf(d, p);
    StripTwice(d.write.value.value);
  }

  class MemoryPersistenceBoundary {
    const facts: FactTable

    constructor (facts: FactTable)
      ensures this.facts == facts
    {
      this.facts := facts;
    }

    method CommitDecision(d: Decision, p: Policy, elsewhere: Result<Receipt, StoreError>) returns (commitment: Commitment)
      requires d.Valid()
      modifies facts
      ensures (Table(facts.rows, facts.nextId), commitment) == Commit(old(Table(facts.rows, facts.nextId)), d, p, elsewhere)
    {
      if d.action == Ignore {
        return NotWritten(d, d.reason, None);
      }
      var w := d.write.value;
      if w.scope != p.scope {
        return NotWritten(d, ScopeWideningDenied, Some(ScopeMismatch));
      }
      var store := match w.memoryType
        case Fact => UserFacts
        case Preference => UserFacts
        case Summary => LongTermMemory
        case Resolution => ResolutionMemory;
      if w.memoryType == Resolution && d.resolution.None? {
        return Written(d, store, Failure(NoResolution));
      }
      var outcome := elsewhere;
      if store == UserFacts {
        var parts := SplitKey(w.canonicalKey);
        if parts.None? {
          return Written(d, store, Failure(KeyWithoutCategory));
        }
        outcome := facts.PersistFact(
          Request(RowKey(p.namespace, w.scope, parts.value.0, parts.value.1), w.value, d.action, w.provenance));
      }
      return Written(d, store, outcome);
    }
  }

  /** The evidence shows content exactly when the write is durable, and then the decision's own value under its own key. */
  lemma CommitmentShowsTheWrite(t: Table, d: Decision, p: Policy, elsewhere: Result<Receipt, StoreError>)
    requires d.Valid()
    ensures var made := Commit(t, d, p, elsewhere).1;
            && (made.committed <==> made.content.Some?) && (made.committed <==> made.receipt.Some?)
            && (!made.committed && d.action != Ignore ==> made.error.Some?)
            && (made.committed ==> d.write.Some? && made.error.None? && made.content == ContentOf(d))
            && (made.committed ==> made.scope == Some(p.scope) && made.canonicalKey == d.write.value.canonicalKey)
            && (made.committed ==> made.evidenceId == d.write.value.provenance.evidenceId)
  {
    hide Persist, SplitKey, RequestOf;
  }

  /** What the evidence of a durable write shows, by the type of memory, and which store it names. */
  lemma CommitmentContent(t: Table, d: Decision, p: Policy, elsewhere: Result<Receipt, StoreError>)
    requires d.Valid() && Commit(t, d, p, elsewhere).1.committed
    ensures var made, w := Commit(t, d, p, elsewhere).1, d.write.value;
            match w.memoryType
            case Fact => made.store == UserFacts && made.content == Some(FactContent(w.value))
            case Preference => made.store == UserFacts && made.content == Some(FactContent(w.value))
            case Summary => made.store == LongTermMemory && made.content == Some(SummaryContent(w.value)) && elsewhere == Success(made.receipt.value)
            case Resolution =>
              && made.store == ResolutionMemory && elsewhere == Success(made.receipt.value) && d.resolution.Some?
              && made.content.Some? && made.content.value.ResolutionContent?
              && made.content.value.utterance == d.resolution.value.utterance && made.content.value.target == w.value
              && made.content.value.kind == d.resolution.value.kind && made.content.value.metadata == d.resolution.value.metadata
    ensures Commit(t, d, p, elsewhere).1.action == d.action && Commit(t, d, p, elsewhere).1.reason == d.reason
  {
    hide Persist, SplitKey, RequestOf;
  }

  /** Why a decision was not written, and that the table of facts is then as it was unless its own store refused. */
  lemma NotCommittedBecause(t: Table, d: Decision, p: Policy, elsewhere: Result<Receipt, StoreError>)
    requires d.Valid() && !Commit(t, d, p, elsewhere).1.committed
    ensures var (after, made) := Commit(t, d, p, elsewhere);
            && made.action == d.action && made.content == None && made.receipt == None
            && if d.action == Ignore then after == t && made.store == NoStore && made.reason == d.reason && made.error == None
               else if d.write.value.scope != p.scope
               then after == t && made.store == NoStore && made.reason == ScopeWideningDenied && made.error == Some(ScopeMismatch)
               else
                 && made.reason == d.reason
                 && match d.write.value.memoryType
                    case Summary => after == t && made.store == LongTermMemory && elsewhere == Failure(made.error.value)
                    case Resolution =>
                      && after == t && made.store == ResolutionMemory
                      && if d.resolution == None then made.error == Some(NoResolution) else elsewhere == Failure(made.error.value)
                    case _ => made.store == UserFacts && ('.' !in d.write.value.canonicalKey ==> after == t && made.error == Some(KeyWithoutCategory))
  {
    hide Persist, SplitKey, RequestOf;
  }
}

/**
 * The append-only checkpoint store. Its meaning is one insertion log; the three
 * maps it really keeps are indexes into that log.
 */
module Store {
  import opened Text
  import opened Contracts
  import opened Codec

  datatype StoreError = IdCollision | FirstNotInitial | ParentNotLatest | SequenceNotNext

  // The log and its projections.

  function RunLog(log: seq<RunCheckpoint>, run: string): seq<RunCheckpoint> {
    if log == [] then []
    else
      var last := log[|log| - 1];
      RunLog(log[..|log| - 1], run) + if last.runId == run then [last] else []
  }

  /** The lineage of one (run, workflow). */
  function Chain(log: seq<RunCheckpoint>, run: string, workflow: string): seq<RunCheckpoint> {
    if log == [] then []
    else
      var last := log[|log| - 1];
      Chain(log[..|log| - 1], run, workflow) + if last.runId == run && last.workflowId == workflow then [last] else []
  }

  function Ids(cs: seq<RunCheckpoint>): seq<string> {
    seq(|cs|, i requires 0 <= i < |cs| => cs[i].checkpointId)
  }

  function Find(log: seq<RunCheckpoint>, id: string): Option<RunCheckpoint> {
    if log == [] then None
    else if log[|log| - 1].checkpointId == id then Some(log[|log| - 1])
    else Find(log[..|log| - 1], id)
  }

  ghost predicate UniqueIds(log: seq<RunCheckpoint>) {
    forall i, j :: 0 <= i < j < |log| ==> log[i].checkpointId != log[j].checkpointId
  }

  /** The id that entry `i` of a chain must name as its parent. */
  function ParentAt(h: seq<RunCheckpoint>, i: nat): Option<string>
    requires i <= |h|
  {
    if i == 0 then None else Some(h[i - 1].checkpointId)
  }

  /** `c` takes the next position of `chain`. */
  predicate Follows(chain: seq<RunCheckpoint>, c: RunCheckpoint) {
    c.sequenceNumber == |chain| && c.parentCheckpointId == ParentAt(chain, |chain|)
  }

  /** One unforked chain, entry by entry; `ChainPositions` reads it off by index. */
  ghost predicate IsChain(h: seq<RunCheckpoint>) {
    h == [] || (IsChain(h[..|h| - 1]) && Follows(h[..|h| - 1], h[|h| - 1]))
  }

  /** Entry i of a chain has sequence i and names entry i-1 as its parent. */
  lemma {:induction false} ChainPositions(h: seq<RunCheckpoint>, i: nat)
    requires IsChain(h) && i < |h|
    ensures h[i].sequenceNumber == i && h[i].parentCheckpointId == ParentAt(h, i)
  {
    if i < |h| - 1 { ChainPositions(h[..|h| - 1], i); }
  }

  ghost predicate Linear(log: seq<RunCheckpoint>) {
    forall run, workflow :: IsChain(Chain(log, run, workflow))
  }

  /** Entry by entry: a new id, and the next position of its own chain. This is the store's invariant. */
  ghost predicate WellBuilt(log: seq<RunCheckpoint>) {
    log == [] || (WellBuilt(log[..|log| - 1]) && Fits(log[..|log| - 1], log[|log| - 1]))
  }

  ghost predicate Fits(log: seq<RunCheckpoint>, c: RunCheckpoint) {
    Find(log, c.checkpointId).None? && Follows(Chain(log, c.runId, c.workflowId), c)
  }

  lemma {:induction false} WellBuiltIsUnique(log: seq<RunCheckpoint>)
    requires WellBuilt(log)
    ensures UniqueIds(log)
  {
    if log != [] {
      var front, last := log[..|log| - 1], log[|log| - 1];
      WellBuiltIsUnique(front);
      FindMeaning(front, last.checkpointId);
      assert log == front + [last];
    }
  }

  lemma {:induction false} WellBuiltIsChain(log: seq<RunCheckpoint>, run: string, workflow: string)
    requires WellBuilt(log)
    ensures IsChain(Chain(log, run, workflow))
  {
    if log != [] {
      var front, last := log[..|log| - 1], log[|log| - 1];
      WellBuiltIsChain(front, run, workflow);
      var chain := Chain(front, run, workflow);
      if last.runId == run && last.workflowId == workflow {
        ChainExtends(chain, last);
        assert Chain(log, run, workflow) == chain + [last];
      } else {
        assert Chain(log, run, workflow) == chain;
      }
    }
  }

  /** A well-built log repeats no id, and every (run, workflow) in it is one unforked chain. */
  lemma WellBuiltMeaning(log: seq<RunCheckpoint>)
    requires WellBuilt(log)
    ensures UniqueIds(log) && Linear(log)
  {
    WellBuiltIsUnique(log);
    forall run, workflow ensures IsChain(Chain(log, run, workflow)) {
      WellBuiltIsChain(log, run, workflow);
    }
  }

  // What `save` decides.

  /** Why `c` cannot be the next entry of `chain`, judged by its latest entry alone. */
  function PositionFault(chain: seq<RunCheckpoint>, c: RunCheckpoint): Option<StoreError> {
    if chain == [] then
      if c.sequenceNumber != 0 || c.parentCheckpointId.Some? then Some(FirstNotInitial) else None
    else if c.parentCheckpointId != Some(chain[|chain| - 1].checkpointId) then Some(ParentNotLatest)
    else if c.sequenceNumber != chain[|chain| - 1].sequenceNumber + 1 then Some(SequenceNotNext)
    else None
  }

  function SaveOutcome(log: seq<RunCheckpoint>, c: RunCheckpoint): Result<RunCheckpoint, StoreError> {
    match Find(log, c.checkpointId)
    case Some(existing) => if Digest(existing) != Digest(c) then Failure(IdCollision) else Success(existing)
    case None =>
      var fault := PositionFault(Chain(log, c.runId, c.workflowId), c);
      if fault.Some? then Failure(fault.value) else Success(c)
  }

  function LogAfter(log: seq<RunCheckpoint>, c: RunCheckpoint): seq<RunCheckpoint> {
    if SaveOutcome(log, c).Success? && Find(log, c.checkpointId).None? then log + [c] else log
  }

  lemma {:induction false} FindMeaning(log: seq<RunCheckpoint>, id: string)
    ensures Find(log, id).Some? ==> Find(log, id).value in log && Find(log, id).value.checkpointId == id
    ensures Find(log, id).None? <==> forall i :: 0 <= i < |log| ==> log[i].checkpointId != id
    ensures UniqueIds(log) ==> forall i :: 0 <= i < |log| && log[i].checkpointId == id ==> Find(log, id) == Some(log[i])
  {
    if log != [] { FindMeaning(log[..|log| - 1], id); }
  }

  lemma Appended(log: seq<RunCheckpoint>, c: RunCheckpoint, run: string, workflow: string, id: string)
    ensures RunLog(log + [c], run) == RunLog(log, run) + if c.runId == run then [c] else []
    ensures Chain(log + [c], run, workflow) == Chain(log, run, workflow) + if c.runId == run && c.workflowId == workflow then [c] else []
    ensures Find(log + [c], id) == if c.checkpointId == id then Some(c) else Find(log, id)
  {
    assert (log + [c])[..|log|] == log;
  }

  /** Filtering a run's history by workflow gives that workflow's chain. */
  lemma {:induction false} RunLogHoldsChains(log: seq<RunCheckpoint>, run: string, workflow: string)
    ensures Chain(RunLog(log, run), run, workflow) == Chain(log, run, workflow)
  {
    if log != [] {
      var front, last := log[..|log| - 1], log[|log| - 1];
      RunLogHoldsChains(front, run, workflow);
      if last.runId == run {
        Appended(RunLog(front, run), last, run, workflow, "");
        assert RunLog(log, run) == RunLog(front, run) + [last];
      } else {
        assert RunLog(log, run) == RunLog(front, run);
      }
    }
  }

  /** A chain lists exactly the log entries of its run and workflow; a run's history, those of its run. */
  lemma {:induction false} ChainMeaning(log: seq<RunCheckpoint>, run: string, workflow: string)
    ensures forall c :: c in Chain(log, run, workflow) <==> c in log && c.runId == run && c.workflowId == workflow
    ensures forall c :: c in RunLog(log, run) <==> c in log && c.runId == run
  {
    if log != [] {
      ChainMeaning(log[..|log| - 1], run, workflow);
      assert log == log[..|log| - 1] + [log[|log| - 1]];
    }
  }

  lemma AddsNewId(log: seq<RunCheckpoint>, part: seq<RunCheckpoint>, c: RunCheckpoint)
    requires Find(log, c.checkpointId).None? && UniqueIds(part) && forall e :: e in part ==> e in log
    ensures UniqueIds(part + [c])
  {
    FindMeaning(log, c.checkpointId);
    forall i | 0 <= i < |part| ensures part[i].checkpointId != c.checkpointId {
      assert part[i] in log;
      var k :| 0 <= k < |log| && log[k] == part[i];
    }
  }

  /** Each stored id occurs once in each history it belongs to. */
  lemma {:induction false} HistoriesRepeatNothing(log: seq<RunCheckpoint>, run: string, workflow: string)
    requires WellBuilt(log)
    ensures UniqueIds(Chain(log, run, workflow)) && UniqueIds(RunLog(log, run))
  {
    if log != [] {
      var front, last := log[..|log| - 1], log[|log| - 1];
      HistoriesRepeatNothing(front, run, workflow);
      ChainMeaning(front, run, workflow);
      AddsNewId(front, Chain(front, run, workflow), last);
      AddsNewId(front, RunLog(front, run), last);
    }
  }

  /** Saving anything at all keeps the log well built, and everything already stored. */
  lemma SaveKeepsWellBuilt(log: seq<RunCheckpoint>, c: RunCheckpoint)
    requires WellBuilt(log)
    ensures WellBuilt(LogAfter(log, c)) && log <= LogAfter(log, c)
    ensures LogAfter(log, c) == if Fits(log, c) then log + [c] else log
  {
    FollowsMeaning(log, c);
    assert (log + [c])[..|log|] == log;
  }

  /** The two checks `save` makes against the latest entry mean: the next position of the chain. */
  lemma FollowsMeaning(log: seq<RunCheckpoint>, c: RunCheckpoint)
    requires WellBuilt(log)
    ensures Find(log, c.checkpointId).None? ==>
              (SaveOutcome(log, c) == Success(c) <==> Follows(Chain(log, c.runId, c.workflowId), c))
              && (SaveOutcome(log, c).Success? ==> SaveOutcome(log, c) == Success(c))
  {
    var chain := Chain(log, c.runId, c.workflowId);
    WellBuiltIsChain(log, c.runId, c.workflowId);
    if chain != [] { ChainPositions(chain, |chain| - 1); }
  }

  lemma FitsIsSaved(log: seq<RunCheckpoint>, c: RunCheckpoint)
    requires WellBuilt(log) && Fits(log, c)
    ensures SaveOutcome(log, c) == Success(c) && LogAfter(log, c) == log + [c]
  {
    FollowsMeaning(log, c);
    SaveKeepsWellBuilt(log, c);
  }

  lemma ChainExtends(chain: seq<RunCheckpoint>, c: RunCheckpoint)
    requires IsChain(chain)
    ensures IsChain(chain + [c]) <==> Follows(chain, c)
  {
    assert (chain + [c])[..|chain|] == chain;
  }

  /** A refused save names its fault: an id stored with other content, or the first thing wrong with the place in its chain. */
  lemma SaveRefuses(log: seq<RunCheckpoint>, c: RunCheckpoint)
    requires SaveOutcome(log, c).Failure?
    ensures LogAfter(log, c) == log
    ensures var chain := Chain(log, c.runId, c.workflowId);
            match SaveOutcome(log, c).error
            case IdCollision => exists e :: e in log && e.checkpointId == c.checkpointId && Digest(e) != Digest(c)
            case FirstNotInitial => chain == [] && (c.sequenceNumber != 0 || c.parentCheckpointId != None)
            case ParentNotLatest => chain != [] && c.parentCheckpointId != Some(chain[|chain| - 1].checkpointId)
            case SequenceNotNext =>
              chain != [] && c.parentCheckpointId == Some(chain[|chain| - 1].checkpointId)
              && c.sequenceNumber != chain[|chain| - 1].sequenceNumber + 1
  {
    FindMeaning(log, c.checkpointId);
    hide Find, Chain, Digest;
  }

  /** `save` accepts exactly an identical copy of a stored checkpoint, or a fresh id that extends its chain by one. */
  lemma SaveAccepts(log: seq<RunCheckpoint>, c: RunCheckpoint)
    requires WellBuilt(log)
    ensures SaveOutcome(log, c).Success? <==>
            || (exists e :: e in log && e.checkpointId == c.checkpointId && Digest(e) == Digest(c))
            || ((forall e :: e in log ==> e.checkpointId != c.checkpointId)
                && IsChain(Chain(log, c.runId, c.workflowId) + [c]))
  {
    WellBuiltMeaning(log);
    FindMeaning(log, c.checkpointId);
    if Find(log, c.checkpointId).Some? {
      var e := Find(log, c.checkpointId).value;
      forall f | f in log && f.checkpointId == c.checkpointId ensures f == e {
        var i :| 0 <= i < |log| && log[i] == f;
      }
    } else {
      FollowsMeaning(log, c);
      assert IsChain(Chain(log, c.runId, c.workflowId));
      ChainExtends(Chain(log, c.runId, c.workflowId), c);
    }
  }

  /** Saving again what was just accepted returns it and changes nothing. */
  lemma ResaveIsNoOp(log: seq<RunCheckpoint>, c: RunCheckpoint, again: RunCheckpoint)
    requires SaveOutcome(log, c).Success?
    requires again.checkpointId == c.checkpointId && Digest(again) == Digest(c)
    ensures SaveOutcome(LogAfter(log, c), again) == SaveOutcome(log, c)
    ensures LogAfter(LogAfter(log, c), again) == LogAfter(log, c)
  {
    Appended(log, c, "", "", c.checkpointId);
  }

  /** In particular a decoded copy of any stored checkpoint can be saved again without effect. */
  lemma ResavingDecodedCopy(log: seq<RunCheckpoint>, c: RunCheckpoint, expectedSchema: string)
    requires WellBuilt(log)
    requires WellFormed(c) && c in log
    requires Decode(Encode(c), expectedSchema).Success?
    ensures SaveOutcome(log, Decode(Encode(c), expectedSchema).value) == Success(c)
    ensures LogAfter(log, Decode(Encode(c), expectedSchema).value) == log
  {
    ReencodeIsStable(c, expectedSchema);
    DecodeEncoded(c, expectedSchema);
    WellBuiltMeaning(log);
    FindMeaning(log, c.checkpointId);
  }

  // The store itself.

  function IdIndex(log: seq<RunCheckpoint>): map<string, RunCheckpoint> {
    if log == [] then map[]
    else IdIndex(log[..|log| - 1])[log[|log| - 1].checkpointId := log[|log| - 1]]
  }

  function RunIndex(log: seq<RunCheckpoint>): map<string, seq<string>> {
    if log == [] then map[]
    else Record(RunIndex(log[..|log| - 1]), log[|log| - 1].runId, log[|log| - 1].checkpointId)
  }

  function FlowIndex(log: seq<RunCheckpoint>): map<(string, string), seq<string>> {
    if log == [] then map[]
    else Record(FlowIndex(log[..|log| - 1]), (log[|log| - 1].runId, log[|log| - 1].workflowId), log[|log| - 1].checkpointId)
  }

  /** Adds `id` to the history under `key`. */
  function Record<K>(m: map<K, seq<string>>, key: K, id: string): map<K, seq<string>> {
    m[key := HistoryOf(m, key) + [id]]
  }

  /** What queries can see of a history index: an empty history is no history. */
  function Visible<K>(m: map<K, seq<string>>): map<K, seq<string>> {
    map k | k in m && m[k] != [] :: m[k]
  }

  function HistoryOf<K>(m: map<K, seq<string>>, key: K): seq<string> {
    if key in m then m[key] else []
  }

  function SetDefault<K>(m: map<K, seq<string>>, key: K): map<K, seq<string>> {
    if key in m then m else m[key := []]
  }

  lemma SetDefaultInvisible<K>(m: map<K, seq<string>>, key: K)
    ensures Visible(SetDefault(m, key)) == Visible(m)
    ensures HistoryOf(SetDefault(m, key), key) == HistoryOf(Visible(m), key)
  {
  }

  lemma RecordVisible<K>(m: map<K, seq<string>>, key: K, id: string)
    ensures Visible(Record(m, key, id)) == Record(Visible(m), key, id)
    ensures HistoryOf(Visible(m), key) == HistoryOf(m, key)
  {
  }

  /** The three indexes agree with the log. */
  lemma {:induction false} IdIndexMeaning(log: seq<RunCheckpoint>, id: string)
    ensures Find(log, id) == if id in IdIndex(log) then Some(IdIndex(log)[id]) else None
  {
    if log != [] { IdIndexMeaning(log[..|log| - 1], id); }
  }

  lemma IdsAppend(cs: seq<RunCheckpoint>, c: RunCheckpoint)
    ensures Ids(cs + [c]) == Ids(cs) + [c.checkpointId] && Ids(cs + []) == Ids(cs) && Ids([]) == []
  {
    assert cs + [] == cs;
  }

  lemma {:induction false} RunIndexMeaning(log: seq<RunCheckpoint>, run: string)
    ensures HistoryOf(RunIndex(log), run) == Ids(RunLog(log, run))
  {
    if log != [] {
      RunIndexMeaning(log[..|log| - 1], run);
      IdsAppend(RunLog(log[..|log| - 1], run), log[|log| - 1]);
    }
  }

  lemma {:induction false} FlowIndexMeaning(log: seq<RunCheckpoint>, run: string, workflow: string)
    ensures HistoryOf(FlowIndex(log), (run, workflow)) == Ids(Chain(log, run, workflow))
  {
    if log != [] {
      FlowIndexMeaning(log[..|log| - 1], run, workflow);
      IdsAppend(Chain(log[..|log| - 1], run, workflow), log[|log| - 1]);
    }
  }

  lemma {:induction false} IndexMeaning(log: seq<RunCheckpoint>, id: string, run: string, workflow: string)
    ensures Find(log, id) == if id in IdIndex(log) then Some(IdIndex(log)[id]) else None
    ensures HistoryOf(RunIndex(log), run) == Ids(RunLog(log, run))
    ensures HistoryOf(FlowIndex(log), (run, workflow)) == Ids(Chain(log, run, workflow))
  {
    hide Chain, RunLog, Find, IdIndex, RunIndex, FlowIndex;
    IdIndexMeaning(log, id);
    RunIndexMeaning(log, run);
    FlowIndexMeaning(log, run, workflow);
  }

  predicate OfAttempt(c: RunCheckpoint, run: string, workflow: string, attempt: string) {
    c.runId == run && c.workflowId == workflow && (attempt == "" || c.activationAttemptId == attempt)
  }

  /** The newest entry of an attempt in a chain is the newest of the whole log. */
  lemma NewestOfAttempt(log: seq<RunCheckpoint>, run: string, workflow: string, attempt: string, n: nat)
    requires WellBuilt(log) && n < |Chain(log, run, workflow)| && OfAttempt(Chain(log, run, workflow)[n], run, workflow, attempt)
    requires forall k :: n < k < |Chain(log, run, workflow)| ==> !OfAttempt(Chain(log, run, workflow)[k], run, workflow, attempt)
    ensures exists i :: 0 <= i < |log| && log[i] == Chain(log, run, workflow)[n] && OfAttempt(log[i], run, workflow, attempt)
                        && forall j :: i < j < |log| ==> !OfAttempt(log[j], run, workflow, attempt)
  {
    hide WellBuilt, Chain;
    ChainIsOrdered(log, run, workflow, n);
    var i :| 0 <= i < |log| && log[i] == Chain(log, run, workflow)[n]
             && forall j :: i < j < |log| && log[j].runId == run && log[j].workflowId == workflow ==>
                  log[j] in Chain(log, run, workflow)[n + 1..];
    forall j | i < j < |log| ensures !OfAttempt(log[j], run, workflow, attempt) {
      if log[j].runId == run && log[j].workflowId == workflow {
        assert log[j] in Chain(log, run, workflow)[n + 1..];
      }
    }
  }

  lemma NoneOfAttempt(log: seq<RunCheckpoint>, run: string, workflow: string, attempt: string)
    requires WellBuilt(log)
    requires forall k :: 0 <= k < |Chain(log, run, workflow)| ==> !OfAttempt(Chain(log, run, workflow)[k], run, workflow, attempt)
    ensures forall c :: c in log ==> !OfAttempt(c, run, workflow, attempt)
  {
    hide WellBuilt, Chain;
    ChainMeaning(log, run, workflow);
  }

  class InMemoryCheckpointStore {
    var checkpoints: map<string, RunCheckpoint>
    var runHistory: map<string, seq<string>>
    var workflowHistory: map<(string, string), seq<string>>
    ghost var log: seq<RunCheckpoint>

    ghost predicate Valid()
      reads this
    {
      && WellBuilt(log)
      && checkpoints == IdIndex(log) && runHistory == RunIndex(log) && Visible(workflowHistory) == FlowIndex(log)
    }

    constructor ()
      ensures Valid() && log == []
    {
      checkpoints, runHistory, workflowHistory, log := map[], map[], map[], [];
    }

    method CheckLineage(history: seq<string>, c: RunCheckpoint) returns (fault: Option<StoreError>)
      requires WellBuilt(log) && checkpoints == IdIndex(log)
      requires history == Ids(Chain(log, c.runId, c.workflowId))
      ensures fault == PositionFault(Chain(log, c.runId, c.workflowId), c)
    {
      if history == [] {
        if c.sequenceNumber != 0 || c.parentCheckpointId.Some? {
          return Some(FirstNotInitial);
        }
        return None;
      }
      ChainEntry(log, c.runId, c.workflowId, |history| - 1);
      var latest := checkpoints[history[|history| - 1]];
      if c.parentCheckpointId != Some(latest.checkpointId) {
        return Some(ParentNotLatest);
      }
      if c.sequenceNumber != latest.sequenceNumber + 1 {
        return Some(SequenceNotNext);
      }
      return None;
    }

    /** Appends a checkpoint with a new id. A refusal may leave an empty history behind; no query can see it. */
    method SaveNew(c: RunCheckpoint) returns (fault: Option<StoreError>)
      requires Valid() && Find(log, c.checkpointId).None?
      modifies this
      ensures checkpoints == IdIndex(log) && runHistory == RunIndex(log) && Visible(workflowHistory) == FlowIndex(log)
      ensures fault == PositionFault(Chain(old(log), c.runId, c.workflowId), c)
      ensures log == if fault.Some? then old(log) else old(log) + [c]
      ensures fault.Some? ==> workflowHistory == SetDefault(old(workflowHistory), (c.runId, c.workflowId))
    {
      var key := (c.runId, c.workflowId);
      IndexMeaning(log, c.checkpointId, c.runId, c.workflowId);
      SetDefaultInvisible(workflowHistory, key);
      workflowHistory := SetDefault(workflowHistory, key);
      fault := CheckLineage(workflowHistory[key], c);
      if fault.None? {
        Insert(c);
      }
    }

    /** Enters `c` under its id and at the end of its two histories. */
    method Insert(c: RunCheckpoint)
      requires checkpoints == IdIndex(log) && runHistory == RunIndex(log) && Visible(workflowHistory) == FlowIndex(log)
      modifies this
      ensures log == old(log) + [c]
      ensures checkpoints == IdIndex(log) && runHistory == RunIndex(log) && Visible(workflowHistory) == FlowIndex(log)
    {
      var key := (c.runId, c.workflowId);
      RecordVisible(workflowHistory, key, c.checkpointId);
      assert (log + [c])[..|log|] == log;
      checkpoints := checkpoints[c.checkpointId := c];
      workflowHistory := Record(workflowHistory, key, c.checkpointId);
      runHistory := Record(runHistory, c.runId, c.checkpointId);
      log := log + [c];
    }

    /** Accepts an identical copy of a stored checkpoint, or the next checkpoint of its lineage. */
    method Save(c: RunCheckpoint) returns (r: Result<RunCheckpoint, StoreError>)
      requires Valid()
      modifies this
      ensures Valid()
      ensures r == SaveOutcome(old(log), c)
      ensures log == LogAfter(old(log), c)
    {
      SaveKeepsWellBuilt(log, c);
      IndexMeaning(log, c.checkpointId, "", "");
      if c.checkpointId in checkpoints {
        var existing := checkpoints[c.checkpointId];
        if Digest(existing) != Digest(c) {
          return Failure(IdCollision);
        }
        return Success(existing);
      }
      var fault := SaveNew(c);
      r := if fault.Some? then Failure(fault.value) else Success(c);
    }

    method Get(id: string) returns (r: Option<RunCheckpoint>)
      requires Valid()
      ensures r.None? ==> forall c :: c in log ==> c.checkpointId != id
      ensures r.Some? ==> r.value in log && r.value.checkpointId == id
    {
      FindMeaning(log, id);
      IndexMeaning(log, id, "", "");
      r := if id in checkpoints then Some(checkpoints[id]) else None;
    }

    method Latest(run: string) returns (r: Option<RunCheckpoint>)
      requires Valid()
      ensures r == if RunLog(log, run) == [] then None else Some(RunLog(log, run)[|RunLog(log, run)| - 1])
    {
      hide WellBuilt, Chain, RunLog, Find, IdIndex, RunIndex, FlowIndex;
      var history := HistoryOf(runHistory, run);
      IndexMeaning(log, "", run, "");
      if history == [] {
        return None;
      }
      RunEntry(log, run, |history| - 1);
      return Some(checkpoints[history[|history| - 1]]);
    }

    /** The answer of a backward scan of the whole log. */
    method LatestForWorkflow(run: string, workflow: string, attempt: string) returns (r: Option<RunCheckpoint>)
      requires Valid()
      ensures r.None? ==> forall c :: c in log && c.runId == run && c.workflowId == workflow ==> attempt != "" && c.activationAttemptId != attempt
      ensures r.Some? ==> r.value.runId == run && r.value.workflowId == workflow && (attempt != "" ==> r.value.activationAttemptId == attempt)
      ensures r.Some? ==> exists i :: 0 <= i < |log| && log[i] == r.value && OfAttempt(log[i], run, workflow, attempt)
                                      && forall j :: i < j < |log| ==> !OfAttempt(log[j], run, workflow, attempt)
    {
      hide WellBuilt, Chain, RunLog, Find, IdIndex, RunIndex, FlowIndex;
      var history := HistoryOf(workflowHistory, (run, workflow));
      ghost var chain := Chain(log, run, workflow);
      IndexMeaning(log, "", run, workflow);
      RecordVisible(workflowHistory, (run, workflow), "");
      var n := |history|;
      while n > 0
        invariant 0 <= n <= |history|
        invariant forall k :: n <= k < |chain| ==> !OfAttempt(chain[k], run, workflow, attempt)
      {
        n := n - 1;
        ChainEntry(log, run, workflow, n);
        var checkpoint := checkpoints[history[n]];
        if attempt == "" || checkpoint.activationAttemptId == attempt {
          NewestOfAttempt(log, run, workflow, attempt, n);
          return Some(checkpoint);
        }
      }
      NoneOfAttempt(log, run, workflow, attempt);
      return None;
    }

    method History(run: string) returns (r: seq<RunCheckpoint>)
      requires Valid()
      ensures r == RunLog(log, run)
    {
      hide WellBuilt, Chain, RunLog, Find, IdIndex, RunIndex, FlowIndex;
      var history := HistoryOf(runHistory, run);
      IndexMeaning(log, "", run, "");
      r := [];
      for i := 0 to |history|
        invariant r == RunLog(log, run)[..i]
      {
        RunEntry(log, run, i);
        r := r + [checkpoints[history[i]]];
      }
    }
  }

  /** A stored checkpoint is what the id index holds under its id. */
  lemma StoredUnderId(log: seq<RunCheckpoint>, c: RunCheckpoint)
    requires WellBuilt(log) && c in log
    ensures c.checkpointId in IdIndex(log) && IdIndex(log)[c.checkpointId] == c
  {
    WellBuiltMeaning(log);
    FindMeaning(log, c.checkpointId);
    IndexMeaning(log, c.checkpointId, "", "");
  }

  lemma ChainEntry(log: seq<RunCheckpoint>, run: string, workflow: string, i: nat)
    requires WellBuilt(log) && i < |Chain(log, run, workflow)|
    ensures var c := Chain(log, run, workflow)[i]; c.checkpointId in IdIndex(log) && IdIndex(log)[c.checkpointId] == c
    ensures var c := Chain(log, run, workflow)[i]; c.runId == run && c.workflowId == workflow
  {
    ChainMeaning(log, run, workflow);
    assert Chain(log, run, workflow)[i] in Chain(log, run, workflow);
    StoredUnderId(log, Chain(log, run, workflow)[i]);
  }

  lemma RunEntry(log: seq<RunCheckpoint>, run: string, i: nat)
    requires WellBuilt(log) && i < |RunLog(log, run)|
    ensures var c := RunLog(log, run)[i]; c.checkpointId in IdIndex(log) && IdIndex(log)[c.checkpointId] == c
  {
    ChainMeaning(log, run, "");
    assert RunLog(log, run)[i] in RunLog(log, run);
    StoredUnderId(log, RunLog(log, run)[i]);
  }

  /** Nothing after a chain's n-th entry in the log belongs to its first n entries. */
  lemma OrderExtends(
    front: seq<RunCheckpoint>, older: seq<RunCheckpoint>, last: RunCheckpoint, chain: seq<RunCheckpoint>,
    run: string, workflow: string, n: nat)
    requires chain == older + if last.runId == run && last.workflowId == workflow then [last] else []
    requires n < |older|
    requires exists i :: 0 <= i < |front| && front[i] == older[n]
                         && forall j :: i < j < |front| && front[j].runId == run && front[j].workflowId == workflow ==>
                              front[j] in older[n + 1..]
    ensures exists i :: 0 <= i < |front + [last]| && (front + [last])[i] == chain[n]
                        && forall j :: i < j < |front + [last]| && (front + [last])[j].runId == run
                                       && (front + [last])[j].workflowId == workflow ==>
                             (front + [last])[j] in chain[n + 1..]
  {
    var log := front + [last];
    var i :| 0 <= i < |front| && front[i] == older[n]
             && forall j :: i < j < |front| && front[j].runId == run && front[j].workflowId == workflow ==> front[j] in older[n + 1..];
    assert log[i] == chain[n] && chain[n + 1..] == older[n + 1..] + chain[|older|..];
    forall j | i < j < |log| && log[j].runId == run && log[j].workflowId == workflow ensures log[j] in chain[n + 1..] {
      if j < |front| { assert front[j] in older[n + 1..]; } else { assert chain[|older|] == last; }
    }
  }

  lemma {:induction false} ChainIsOrdered(log: seq<RunCheckpoint>, run: string, workflow: string, n: nat)
    requires n < |Chain(log, run, workflow)|
    ensures exists i :: 0 <= i < |log| && log[i] == Chain(log, run, workflow)[n]
                        && forall j :: i < j < |log| && log[j].runId == run && log[j].workflowId == workflow ==>
                             log[j] in Chain(log, run, workflow)[n + 1..]
  {
    var front, last := log[..|log| - 1], log[|log| - 1];
    var older := Chain(front, run, workflow);
    if n == |older| {
      assert Chain(log, run, workflow)[n] == log[|log| - 1];
    } else {
      ChainIsOrdered(front, run, workflow, n);
      OrderExtends(front, older, last, Chain(log, run, workflow), run, workflow, n);
      assert log == front + [last];
    }
  }
}

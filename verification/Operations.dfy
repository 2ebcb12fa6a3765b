/** The recorder's operations, in any order, by any number of recorders over one store. */
module Operations {
  import opened Text
  import opened PlanValues
  import opened Contracts
  import opened Compatibility
  import opened Lifecycle
  import opened Codec
  import opened Store
  import opened Recorder
  import opened Protocol
  import opened ResumePolicy
  import opened ResumeSafety

  datatype Operation =
    | StartRun(request: Request, workflowId: string, workflowVersion: string, stage: string, task: string,
               plan: map<string, Value>, target: string, attempt: string, startIds: (string, string), startTimes: (string, string, string))
    | ResumeRun(decision: ResumeDecision, ids: (string, string), times: (string, string))
    | Clarify(decision: ResumeDecision, id: string, at: string)
    | RecordStage(stageResult: StageResult, failureId: string, id: string, at: string)
    | SuspendRun(reason: string, id: string, at: string)
    | CompleteRun(artifacts: seq<LiveArtifact>, summary: string, id: string, at: string)

  function FirstCheckpoint(op: Operation): RunCheckpoint
    requires op.StartRun?
  {
    InitialCheckpoint(op.request, op.workflowId, op.workflowVersion, op.stage, op.task, op.plan, op.target, op.attempt,
                      op.startIds.0, op.startTimes.0, op.startTimes.1)
  }

  /** What the operation does, as the recorder's methods state it. */
  function Perform(log: seq<RunCheckpoint>, current: Option<RunCheckpoint>, op: Operation): Outcome {
    match op
    case StartRun(_, _, _, _, _, _, _, _, ids, times) => StartOutcome(log, current, FirstCheckpoint(op), ids.1, times.2)
    case ResumeRun(d, ids, times) => ResumeOutcome(log, current, d, ids, times)
    case Clarify(d, id, at) => ClarifyOutcome(log, current, d, id, at)
    case RecordStage(s, failureId, id, at) => RecordOutcome(log, current, s, failureId, id, at)
    case SuspendRun(reason, id, at) => SuspendOutcome(log, current, reason, id, at)
    case CompleteRun(artifacts, summary, id, at) => CompleteOutcome(log, current, artifacts, summary, id, at)
  }

  /** The log and this recorder after an operation that began at `log`. */
  ghost predicate StaysLegal(log: seq<RunCheckpoint>, o: Outcome) {
    WellBuilt(o.log) && LegalLog(o.log) && Bound(o.log, o.current) && log <= o.log
  }

  lemma WriteIsLegal(log: seq<RunCheckpoint>, current: Option<RunCheckpoint>, o: Outcome)
    requires WellBuilt(log) && LegalLog(log) && Bound(log, current) && IsWrite(log, current, o)
    ensures StaysLegal(log, o) && (o.result.Success? ==> o.current == Some(o.result.value))
  {
    WriteStaysBound(log, current, o);
  }

  lemma StartStaysLegal(log: seq<RunCheckpoint>, current: Option<RunCheckpoint>, op: Operation)
    requires WellBuilt(log) && LegalLog(log) && Bound(log, current) && op.StartRun?
    ensures StaysLegal(log, Perform(log, current, op))
  {
    hide IsWrite, Transition, Commit, WellBuilt, LegalLog, Construct, MayWrite;
    var raw := FirstCheckpoint(op);
    if current.None? && Construct(raw).Success? {
      StartIsInitial(op.request, op.workflowId, op.workflowVersion, op.stage, op.task, op.plan, op.target, op.attempt,
                     op.startIds.0, op.startTimes.0, op.startTimes.1);
      StartIsWrites(log, raw, op.startIds.1, op.startTimes.2);
      var first := Commit(log, None, Construct(raw).value);
      WriteIsLegal(log, None, first);
      if first.result.Success? {
        WriteIsLegal(first.log, first.current,
                     Transition(first.log, first.current, first.result.value, Running, op.startIds.1, op.startTimes.2, NO_CHANGES));
      }
    }
  }

  lemma ResumeStaysLegal(log: seq<RunCheckpoint>, c: RunCheckpoint, d: ResumeDecision, ids: (string, string), times: (string, string))
    requires WellBuilt(log) && LegalLog(log) && c in log
    ensures StaysLegal(log, ResumeOutcome(log, Some(c), d, ids, times))
  {
    hide IsWrite, ResumeOutcome, WellBuilt, LegalLog;
    var mid := ResumeIsOneOrTwoWrites(log, c, d, ids, times);
    var o := ResumeOutcome(log, Some(c), d, ids, times);
    WriteIsLegal(log, Some(c), mid);
    if o != mid { WriteIsLegal(mid.log, mid.current, o); }
  }

  lemma OneWriteStaysLegal(log: seq<RunCheckpoint>, c: RunCheckpoint, op: Operation)
    requires WellBuilt(log) && LegalLog(log) && c in log && !op.StartRun? && !op.ResumeRun?
    ensures StaysLegal(log, Perform(log, Some(c), op))
  {
    hide IsWrite, Transition, ClarifyOutcome, WellBuilt, LegalLog, StageChanges, SuspendChanges, CompleteChanges;
    match op {
      case Clarify(d, id, at) => ClarifyIsWrite(log, c, d, id, at);
      case RecordStage(s, failureId, id, at) => RecordStageIsWrite(log, c, s, failureId, id, at);
      case SuspendRun(reason, id, at) => SuspendAndCompleteAreWrites(log, c, reason, [], "", id, at);
      case CompleteRun(artifacts, summary, id, at) => SuspendAndCompleteAreWrites(log, c, "", artifacts, summary, id, at);
    }
    WriteIsLegal(log, Some(c), Perform(log, Some(c), op));
  }

  /** One operation of a recorder bound to nothing or to a stored checkpoint. */
  lemma PerformStaysLegal(log: seq<RunCheckpoint>, current: Option<RunCheckpoint>, op: Operation)
    requires WellBuilt(log) && LegalLog(log) && Bound(log, current)
    ensures StaysLegal(log, Perform(log, current, op))
  {
    if op.StartRun? {
      StartStaysLegal(log, current, op);
    } else if current.None? {
      assert Perform(log, current, op).log == log && Perform(log, current, op).current == None;
    } else if op.ResumeRun? {
      ResumeStaysLegal(log, current.value, op.decision, op.ids, op.times);
    } else {
      OneWriteStaysLegal(log, current.value, op);
    }
  }

  // Runs.

  /** Recorder `i` performs an operation, or a new recorder in its place is bound to what is stored under an id. */
  datatype Act = Operate(i: nat, op: Operation) | Bind(i: nat, id: string)

  function AfterAct(w: World, act: Act): World {
    if act.i >= |w.currents| then w
    else
      match act
      case Operate(i, op) =>
        var o := Perform(w.log, w.currents[i], op);
        World(o.log, w.currents[i := o.current])
      case Bind(i, id) => Rebound(w, i, Find(w.log, id))
  }

  function AfterActs(w: World, acts: seq<Act>): World {
    if acts == [] then w else AfterAct(AfterActs(w, acts[..|acts| - 1]), acts[|acts| - 1])
  }

  lemma OperationKeepsSound(w: World, i: nat, op: Operation)
    requires Sound(w) && i < |w.currents|
    ensures Sound(AfterAct(w, Operate(i, op))) && w.log <= AfterAct(w, Operate(i, op)).log
  {
    hide Perform, WellBuilt, LegalLog;
    assert Bound(w.log, w.currents[i]);
    PerformStaysLegal(w.log, w.currents[i], op);
    var after := AfterAct(w, Operate(i, op));
    forall k | 0 <= k < |after.currents| ensures Bound(after.log, after.currents[k]) {
      assert Bound(w.log, w.currents[k]);
    }
  }

  lemma ActKeepsSound(w: World, act: Act)
    requires Sound(w)
    ensures Sound(AfterAct(w, act)) && w.log <= AfterAct(w, act).log
  {
    hide Perform, WellBuilt, LegalLog, Find;
    if act.i < |w.currents| {
      match act
      case Operate(i, op) => OperationKeepsSound(w, i, op);
      case Bind(_, id) => FindMeaning(w.log, id);
    }
  }

  /**
   * Any operations of any recorders, in any order: the log only grows, no id is stored twice, and every
   * (run, workflow) in it is one unforked chain and a legal run.
   */
  lemma {:induction false} AnyOperationsStayLegal(w: World, acts: seq<Act>, run: string, workflow: string)
    requires Sound(w)
    ensures var v := AfterActs(w, acts);
            && Sound(v) && w.log <= v.log && UniqueIds(v.log)
            && IsChain(Chain(v.log, run, workflow)) && LegalHistory(Chain(v.log, run, workflow))
  {
    if acts != [] {
      AnyOperationsStayLegal(w, acts[..|acts| - 1], run, workflow);
      ActKeepsSound(AfterActs(w, acts[..|acts| - 1]), acts[|acts| - 1]);
    }
    WellBuiltMeaning(AfterActs(w, acts).log);
    LegalLogMeaning(AfterActs(w, acts).log, run, workflow);
  }

  /**
   * At any moment of any such run, a resume that consumes an ALLOW about a recorder's current checkpoint ends
   * RUNNING exactly when that checkpoint is still the newest of its lineage, and otherwise changes nothing;
   * it never meets a transition the table forbids.
   */
  lemma ResumeInAnyRun(
    w: World, acts: seq<Act>, i: nat, d: ResumeDecision, action: ResumeAction, ctx: ResumeContext,
    obs: seq<ExternalStateGuard>, conf: Option<NoEffectConfirmation>, registry: CompatibilityRegistry, p: Platform,
    ids: (string, string), times: (string, string))
    requires Sound(w)
    requires var v := AfterActs(w, acts);
             && i < |v.currents| && v.currents[i].Some? && v.currents[i].value.status != Created
             && Resumes(d, v.currents[i].value, action) && Allowed(action, v.currents[i].value, ctx, obs, conf, registry, p)
             && Fresh(v.log, ids.0) && Fresh(v.log, ids.1) && ids.0 != ids.1
    ensures var v := AfterActs(w, acts);
            var c := v.currents[i].value;
            var o := Perform(v.log, v.currents[i], ResumeRun(d, ids, times));
            && (EndsRunning(o, v.log, c, action) <==> IsLatest(v.log, c))
            && (!IsLatest(v.log, c) ==> o == Outcome(v.log, Some(c), Failure(NotSaved(ParentNotLatest))))
            && !(o.result.Failure? && o.result.error.BadTransition?)
  {
    hide Allowed, EndsRunning, WellBuilt, LegalLog, ResumeOutcome;
    var v := AfterActs(w, acts);
    AnyOperationsStayLegal(w, acts, "", "");
    assert Bound(v.log, v.currents[i]);
    AllowedResumeExactly(v.log, v.currents[i].value, d, action, ctx, obs, conf, registry, p, ids, times);
    EndingRunningIsNoFailure(Perform(v.log, v.currents[i], ResumeRun(d, ids, times)), v.log, v.currents[i].value, action);
  }

  lemma EndingRunningIsNoFailure(o: Outcome, log: seq<RunCheckpoint>, c: RunCheckpoint, action: ResumeAction)
    ensures EndsRunning(o, log, c, action) ==> o.result.Success?
  {
  }
}

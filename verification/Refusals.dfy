/** What a refused resume is told: the reason it names holds of the checkpoint, and no check before it fails. */
module Refusals {
  import opened Text
  import opened Contracts
  import opened Lifecycle
  import opened Compatibility
  import opened ResumePolicy

  ghost predicate Clarifies(r: Refusal, reason: ResumeReason, question: Question) {
    r.disposition == RequireClarification && r.reason == reason && r.question == Some(question)
  }

  ghost predicate Rejects(r: Refusal, reason: ResumeReason) {
    r.disposition == Reject && r.reason == reason && r.question == None
  }

  // Targets.

  function Slashes(n: nat): string { seq(n, _ => '/') }

  lemma {:induction false} TrailingSlashes(s: string) returns (n: nat)
    ensures s == StripTrailing(s, '/') + Slashes(n)
    ensures StripTrailing(s, '/') == "" || StripTrailing(s, '/')[|StripTrailing(s, '/')| - 1] != '/'
  {
    if s != "" && s[|s| - 1] == '/' {
      n := TrailingSlashes(s[..|s| - 1]);
      n := n + 1;
      assert s == s[..|s| - 1] + "/" && Slashes(n) == Slashes(n - 1) + "/";
    } else {
      n := 0;
    }
  }

  lemma NoLongerBeforeSlashes(a: string, b: string, m: nat, n: nat)
    requires a == "" || a[|a| - 1] != '/'
    requires a + Slashes(m) == b + Slashes(n)
    ensures |a| <= |b| && a <= b + Slashes(n)
  {
    assert a != "" ==> (a + Slashes(m))[|a| - 1] == a[|a| - 1];
    assert forall i :: |b| <= i < |b| + n ==> (b + Slashes(n))[i] == '/';
    assert |a| + m == |b| + n;
  }

  lemma SameBeforeSlashes(a: string, b: string, m: nat, n: nat)
    requires a == "" || a[|a| - 1] != '/'
    requires b == "" || b[|b| - 1] != '/'
    requires a + Slashes(m) == b + Slashes(n)
    ensures a == b
  {
    NoLongerBeforeSlashes(a, b, m, n);
    NoLongerBeforeSlashes(b, a, n, m);
  }

  /** The target as it is compared: trimmed, with every backslash read as a slash, and case folded. */
  ghost predicate ReadAs(target: string, folded: string, p: Platform) {
    exists slashed ::
      && |slashed| == |Strip(target)|
      && (forall i :: 0 <= i < |slashed| ==> slashed[i] == if Strip(target)[i] == '\\' then '/' else Strip(target)[i])
      && folded == p.fold(slashed)
  }

  lemma ReadAsKey(target: string, p: Platform)
    ensures ReadAs(target, p.fold(ForwardSlashes(Strip(target))), p)
    ensures forall folded :: ReadAs(target, folded, p) ==> folded == p.fold(ForwardSlashes(Strip(target)))
  {
    hide Strip;
    var slashed := ForwardSlashes(Strip(target));
    assert |slashed| == |Strip(target)|;
    forall other: string | |other| == |slashed| && forall i :: 0 <= i < |other| ==> other[i] == if Strip(target)[i] == '\\' then '/' else Strip(target)[i]
      ensures other == slashed
    {
    }
  }

  /** Two targets agree exactly when, so read, they differ at most in slashes at the end. */
  lemma TargetsAgree(a: string, b: string, p: Platform, readA: string, readB: string)
    requires ReadAs(a, readA, p) && ReadAs(b, readB, p)
    ensures TargetKey(a, p) == TargetKey(b, p) <==> exists m, n :: readA + Slashes(m) == readB + Slashes(n)
  {
    ReadAsKey(a, p);
    ReadAsKey(b, p);
    var x := TrailingSlashes(readA);
    var y := TrailingSlashes(readB);
    hide Strip, StripTrailing, ReadAs, ForwardSlashes;
    var keyA, keyB := TargetKey(a, p), TargetKey(b, p);
    assert readA == keyA + Slashes(x) && readB == keyB + Slashes(y);
    if keyA == keyB {
      SlashesAdd(keyA, x, y);
      SlashesAdd(keyA, y, x);
      assert readA + Slashes(y) == readB + Slashes(x);
    }
    if m, n :| readA + Slashes(m) == readB + Slashes(n) {
      SlashesAdd(keyA, x, m);
      SlashesAdd(keyB, y, n);
      SameBeforeSlashes(keyA, keyB, x + m, y + n);
    }
  }

  lemma SlashesAdd(s: string, m: nat, n: nat)
    ensures s + Slashes(m) + Slashes(n) == s + Slashes(m + n)
  {
  }

  // Guards.

  /** A guard that was observed is refused for one of five reasons, which exclude one another, or confirmed. */
  lemma GuardRefusalSays(g: ExternalStateGuard, o: ExternalStateGuard, p: Platform)
    ensures var r := GuardRefusal(g, Some(o), p);
            var comparable := o.status == Verified && g.expectedValue != "" && o.expectedValue == g.expectedValue;
            && (r == None <==> comparable && FreshSince(o.checkedAt, g.checkedAt, p) && o.observedValue == g.expectedValue)
            && (r.Some? && Rejects(r.value, ExternalStateMismatch) <==>
                || o.status == Mismatch
                || (o.status == Verified && g.expectedValue != "" && o.expectedValue != g.expectedValue)
                || (comparable && FreshSince(o.checkedAt, g.checkedAt, p) && o.observedValue != g.expectedValue))
            && (r.Some? && Clarifies(r.value, ExternalStateUnknown, ConfirmResource) <==> o.status == GuardUnknown || o.status == Missing)
            && (r.Some? && Clarifies(r.value, ExternalStateUnknown, SupplyExpectedState) <==> o.status == Verified && g.expectedValue == "")
            && (r.Some? && Clarifies(r.value, ExternalStateUnknown, RefreshObservation) <==>
                comparable && !FreshSince(o.checkedAt, g.checkedAt, p))
  {
  }

  lemma UnobservedGuardSays(g: ExternalStateGuard, p: Platform)
    ensures var r := GuardRefusal(g, None, p); r.Some? && Clarifies(r.value, ExternalStateUnknown, RecheckResource)
  {
  }

  /** An observation is fresh when it is timezone-aware and strictly later than the guard's own aware check, if there was one. */
  lemma FreshExactly(checkedAt: string, previous: string, p: Platform, now: Instant)
    requires p.parse(checkedAt) == Some(now)
    ensures previous == "" ==> (FreshSince(checkedAt, previous, p) <==> now.aware)
    ensures previous != "" ==>
              (FreshSince(checkedAt, previous, p) <==>
               now.aware && exists before :: p.parse(previous) == Some(Instant(before, true)) && before < now.time)
  {
    if p.parse(previous).Some? {
      assert p.parse(previous) == Some(Instant(p.parse(previous).value.time, p.parse(previous).value.aware));
    }
  }

  /** The guards are judged in their order, and the first that fails decides. */
  lemma {:induction false} FirstFailingGuard(guards: seq<ExternalStateGuard>, obs: seq<ExternalStateGuard>, p: Platform)
    ensures var r := FirstGuardRefusal(guards, obs, p);
            r.Some? ==>
              exists k :: 0 <= k < |guards| && r == GuardRefusal(guards[k], Lookup(obs, Identity(guards[k])), p)
                && forall j :: 0 <= j < k ==> Confirmed(guards[j], obs, p) || !DistinctIdentities(obs)
  {
    if guards != [] {
      var rest := guards[1..];
      FirstFailingGuard(rest, obs, p);
      if DistinctIdentities(obs) { GuardRefusalMeaning(guards[0], obs, p); }
      hide GuardRefusal, Confirmed, DistinctIdentities, Lookup;
      if FirstGuardRefusal(rest, obs, p).Some? {
        var k :| 0 <= k < |rest| && FirstGuardRefusal(rest, obs, p) == GuardRefusal(rest[k], Lookup(obs, Identity(rest[k])), p)
          && forall j :: 0 <= j < k ==> Confirmed(rest[j], obs, p) || !DistinctIdentities(obs);
        assert guards[k + 1] == rest[k];
        assert forall j :: 1 <= j < k + 1 ==> guards[j] == rest[j - 1];
      }
    }
  }

  /** Without guards only what was observed counts: a mismatch is rejected, anything else not verified is asked about. */
  lemma UnguardedSays(obs: seq<ExternalStateGuard>, p: Platform)
    requires GuardsRefusal([], obs, p).Some?
    ensures var r := GuardsRefusal([], obs, p).value;
            if exists o :: o in obs && o.status == Mismatch then Rejects(r, ExternalStateMismatch)
            else Clarifies(r, ExternalStateUnknown, ConfirmResource) && exists o :: o in obs && (o.status == GuardUnknown || o.status == Missing)
  {
    if o :| o in obs && o.status == Mismatch {
      var i :| 0 <= i < |obs| && obs[i] == o;
    } else {
      var i :| 0 <= i < |obs| && obs[i].status != Verified;
      assert obs[i] in obs;
    }
  }

  /** Guards are asked for when nothing was observed; an observation too many is rejected; else the first failing guard decides. */
  lemma GuardedSays(guards: seq<ExternalStateGuard>, obs: seq<ExternalStateGuard>, p: Platform)
    requires guards != [] && GuardsRefusal(guards, obs, p).Some?
    ensures var r := GuardsRefusal(guards, obs, p).value;
            if obs == [] then Clarifies(r, ExternalStateUnknown, RecheckGuards)
            else if (exists i, j :: 0 <= i < j < |obs| && Identity(obs[i]) == Identity(obs[j]))
                    || (exists o :: o in obs && forall g :: g in guards ==> Identity(g) != Identity(o))
            then Rejects(r, ExternalStateMismatch)
            else exists k :: 0 <= k < |guards| && Some(r) == GuardRefusal(guards[k], Lookup(obs, Identity(guards[k])), p)
                   && forall j :: 0 <= j < k ==> Confirmed(guards[j], obs, p)
  {
    hide GuardRefusal, Confirmed, Lookup, FirstGuardRefusal, AllExpected;
    ExpectedMeaning(obs, guards);
    FirstFailingGuard(guards, obs, p);
  }

  lemma ExpectedMeaning(obs: seq<ExternalStateGuard>, guards: seq<ExternalStateGuard>)
    ensures AllExpected(obs, guards) <==> !exists o :: o in obs && forall g :: g in guards ==> Identity(g) != Identity(o)
  {
    if o :| o in obs && forall g :: g in guards ==> Identity(g) != Identity(o) {
      var i :| 0 <= i < |obs| && obs[i] == o;
    }
    if !AllExpected(obs, guards) {
      var i :| 0 <= i < |obs| && forall j :: 0 <= j < |guards| ==> Identity(guards[j]) != Identity(obs[i]);
      assert obs[i] in obs;
    }
  }

  // Effects.

  ghost predicate EffectsIn(c: RunCheckpoint, state: SideEffectState) {
    exists r :: r in c.taskEffectRecords && r.effectState == state
  }

  lemma SomeUnsafe(c: RunCheckpoint, state: SideEffectState)
    requires UnsafeState(state)
    ensures (exists i :: 0 <= i < |UnsafeEffects(c.taskEffectRecords)| && UnsafeEffects(c.taskEffectRecords)[i].effectState == state)
            <==> EffectsIn(c, state)
  {
    var records := c.taskEffectRecords;
    var unsafe := UnsafeEffects(records);
    NoneUnsafe(records);
    hide UnsafeEffects;
    if i :| 0 <= i < |unsafe| && unsafe[i].effectState == state { assert unsafe[i] in unsafe; }
    if r :| r in records && r.effectState == state {
      assert r in unsafe;
      var i :| 0 <= i < |unsafe| && unsafe[i] == r;
    }
  }

  /** Without a confirmation the unsafe effects are asked about, and one that may be under way is said to be. */
  lemma UnsafeEffectsSay(c: RunCheckpoint, p: Platform)
    requires EffectRefusal(c, None, p).Some?
    ensures var r := EffectRefusal(c, None, p).value;
            && r.disposition == RequireClarification
            && r.reason == (if EffectsIn(c, Started) || EffectsIn(c, FailedAfterCommit) then SideEffectInProgress else UnknownSideEffect)
            && (r.reason == UnknownSideEffect ==> EffectsIn(c, Unknown))
  {
    var unsafe := UnsafeEffects(c.taskEffectRecords);
    NoneUnsafe(c.taskEffectRecords);
    hide UnsafeEffects, EffectsIn;
    SomeUnsafe(c, Started);
    SomeUnsafe(c, FailedAfterCommit);
    SomeUnsafe(c, Unknown);
    assert unsafe[0] in unsafe;
  }

  /** The question is about the one unsafe effect, or about each of them. */
  lemma UnsafeEffectsAsk(c: RunCheckpoint, p: Platform, i: nat)
    requires EffectRefusal(c, None, p).Some? && i < |c.taskEffectRecords| && Unsafe(c.taskEffectRecords[i])
    ensures var r, only := EffectRefusal(c, None, p).value, c.taskEffectRecords[i];
            r.question ==
            if !OnlyUnsafe(c.taskEffectRecords, i) then Some(SettleEachEffect)
            else if only.idempotencyKey != "" && only.externalReference != "" then Some(ConfirmNoEffect)
            else Some(CompleteEffectRecord)
  {
    var records := c.taskEffectRecords;
    if OnlyUnsafe(records, i) {
      OneUnsafe(records, i);
    } else if |UnsafeEffects(records)| == 1 {
      var k := FindOnlyUnsafe(records);
    }
    hide UnsafeEffects;
  }

  /** What a confirmation that does not settle the effects is told. */
  lemma ConfirmationSays(c: RunCheckpoint, a: NoEffectConfirmation, p: Platform)
    requires EffectRefusal(c, Some(a), p).Some?
    ensures var r, records := EffectRefusal(c, Some(a), p).value, c.taskEffectRecords;
            if forall i :: 0 <= i < |records| ==> !Unsafe(records[i]) then Rejects(r, UnknownSideEffect)
            else if forall i :: 0 <= i < |records| && OnlyUnsafe(records, i) ==> records[i].taskId != c.activeTaskId
            then Clarifies(r, UnknownSideEffect, ConfirmationTooBroad)
            else exists i :: 0 <= i < |records| && OnlyUnsafe(records, i) && records[i].taskId == c.activeTaskId
                   && if records[i].idempotencyKey == "" || records[i].externalReference == "" then Clarifies(r, UnknownSideEffect, BindingIncomplete)
                      else if (a.taskId, a.idempotencyKey, a.externalReference) ==
                              (records[i].taskId, records[i].idempotencyKey, records[i].externalReference)
                      then Clarifies(r, UnknownSideEffect, ConfirmationStale) && !ConfirmedAfter(a.checkedAt, c.updatedAt, p)
                      else Rejects(r, UnknownSideEffect)
  {
    var records := c.taskEffectRecords;
    NoneUnsafe(records);
    if |UnsafeEffects(records)| == 1 {
      var i := FindOnlyUnsafe(records);
      forall j | 0 <= j < |records| && OnlyUnsafe(records, j) ensures j == i { }
      hide UnsafeEffects, Unsafe;
    } else {
      forall i | 0 <= i < |records| && OnlyUnsafe(records, i) ensures false { OneUnsafe(records, i); }
    }
  }

  /** A confirmation counts when both times are aware and it was made strictly after the checkpoint was written. */
  lemma ConfirmedAfterExactly(checkedAt: string, updatedAt: string, p: Platform)
    ensures ConfirmedAfter(checkedAt, updatedAt, p) <==>
            exists made, written :: p.parse(checkedAt) == Some(Instant(made, true)) && p.parse(updatedAt) == Some(Instant(written, true)) && written < made
  {
    if ConfirmedAfter(checkedAt, updatedAt, p) {
      var made, written := p.parse(checkedAt).value, p.parse(updatedAt).value;
      assert p.parse(checkedAt) == Some(Instant(made.time, true)) && p.parse(updatedAt) == Some(Instant(written.time, true));
    }
  }

  // The verdict.

  /** The reason a refusal names is true of the checkpoint and the request, and says what is to be done. */
  lemma AdmissionSays(
    c: RunCheckpoint, ctx: ResumeContext, obs: seq<ExternalStateGuard>, conf: Option<NoEffectConfirmation>,
    registry: CompatibilityRegistry, p: Platform)
    requires AdmissionRefusal(c, ctx, obs, conf, registry, p).Some?
    ensures var r := AdmissionRefusal(c, ctx, obs, conf, registry, p).value;
            match r.reason
            case MissingContext =>
              Rejects(r, MissingContext) && (ctx.workflowId == "" || ctx.workflowVersion == "" || ctx.planVersion == "")
            case AmbiguousRun => Clarifies(r, AmbiguousRun, WhichRun) && |ctx.candidateRunIds| > 1
            case NoRunMatch => Rejects(r, NoRunMatch) && |ctx.candidateRunIds| == 1 && ctx.candidateRunIds[0] != c.runId
            case TargetConflict =>
              Clarifies(r, TargetConflict, WhichTarget) && ctx.requestedTarget != "" && c.targetSummary != ""
              && TargetKey(ctx.requestedTarget, p) != TargetKey(c.targetSummary, p)
            case TerminalCheckpoint => Rejects(r, TerminalCheckpoint) && c.status in {Completed, Cancelled, FailedTerminal}
            case CheckpointInvalidated => Rejects(r, CheckpointInvalidated) && c.invalidationReasons != []
            case MissingPermission =>
              Rejects(r, MissingPermission) && exists x :: x in ctx.requiredPermissions && x !in ctx.availablePermissions
            case ExternalStateMismatch => GuardsRefusal(c.externalStateGuards, obs, p) == Some(r)
            case ExternalStateUnknown => GuardsRefusal(c.externalStateGuards, obs, p) == Some(r)
            case SchemaIncompatible => Rejects(r, SchemaIncompatible) && !SameMajor(c.schemaVersion, registry.schemaVersion)
            case ContractIncompatible => Rejects(r, ContractIncompatible) && !SameMajor(c.contractVersion, registry.contractVersion)
            case UnknownSideEffect => Rejects(r, UnknownSideEffect) && conf.Some? && ctx.requestedAction != Some(ResumeExact)
            case _ => false
  {
    hide GuardsRefusal, SameMajor, TargetKey;
    GuardsBlameState(c.externalStateGuards, obs, p);
  }

  /** A refusal about the external state: a mismatch is rejected, anything unclear is asked about. */
  ghost predicate BlamesState(r: Option<Refusal>) {
    r.Some? ==> r.value.reason == if r.value.disposition == Reject then ExternalStateMismatch else ExternalStateUnknown
  }

  lemma {:induction false} FirstGuardBlamesState(guards: seq<ExternalStateGuard>, obs: seq<ExternalStateGuard>, p: Platform)
    ensures BlamesState(FirstGuardRefusal(guards, obs, p))
  {
    if guards != [] {
      assert BlamesState(GuardRefusal(guards[0], Lookup(obs, Identity(guards[0])), p));
      hide GuardRefusal, Lookup;
      FirstGuardBlamesState(guards[1..], obs, p);
    }
  }

  lemma GuardsBlameState(guards: seq<ExternalStateGuard>, obs: seq<ExternalStateGuard>, p: Platform)
    ensures BlamesState(GuardsRefusal(guards, obs, p))
  {
    FirstGuardBlamesState(guards, obs, p);
    hide FirstGuardRefusal, DistinctIdentities, AllExpected;
  }

  /** No check before the one that refuses fails: an earlier failure is always the one that is told. */
  lemma AdmissionOrder(
    c: RunCheckpoint, ctx: ResumeContext, obs: seq<ExternalStateGuard>, conf: Option<NoEffectConfirmation>,
    registry: CompatibilityRegistry, p: Platform)
    requires AdmissionRefusal(c, ctx, obs, conf, registry, p).Some?
    ensures var reason := AdmissionRefusal(c, ctx, obs, conf, registry, p).value.reason;
            var runs := {MissingContext, AmbiguousRun, NoRunMatch};
            var states := runs + {TargetConflict, TerminalCheckpoint, CheckpointInvalidated};
            && (!ContextPresent(ctx) ==> reason == MissingContext)
            && (!RunMatches(c, ctx) ==> reason in runs)
            && (!TargetMatches(c, ctx, p) ==> reason in runs + {TargetConflict})
            && (Terminal(c.status) ==> reason in runs + {TargetConflict, TerminalCheckpoint})
            && (c.invalidationReasons != [] ==> reason in states)
            && (!PermissionsCovered(ctx) ==> reason in states + {MissingPermission})
            && (!GuardsHold(c.externalStateGuards, obs, p) ==> reason in states + {MissingPermission, ExternalStateUnknown, ExternalStateMismatch})
            && (!SameMajor(c.schemaVersion, registry.schemaVersion) ==> reason != ContractIncompatible && reason != UnknownSideEffect)
            && (!SameMajor(c.contractVersion, registry.contractVersion) ==> reason != UnknownSideEffect)
  {
    GuardsRefusalMeaning(c.externalStateGuards, obs, p);
    hide GuardsRefusal, SameMajor, TargetMatches, RunMatches, GuardsHold, PermissionsCovered;
    GuardsBlameState(c.externalStateGuards, obs, p);
  }

  /** What keeps an admitted checkpoint from going on in its place. */
  lemma PositionSays(c: RunCheckpoint, ctx: ResumeContext, registry: CompatibilityRegistry)
    requires PositionRefusal(c, ctx, registry).Some?
    ensures var r := PositionRefusal(c, ctx, registry).value;
            var halfDone := exists e ::
              e in c.taskEffectRecords && e.taskId == c.activeTaskId && e.effectState == Committed && e.taskId !in c.completedTaskIds;
            var moved := !WorkflowSame(c, ctx) && !WorkflowMigratable(c, ctx, registry);
            if halfDone then
              if ctx.requestedAction == Some(ReplayFromStage) then Rejects(r, DuplicateSideEffect)
              else Clarifies(r, DuplicateSideEffect, ConfirmCommitted)
            else if moved then Rejects(r, WorkflowIncompatible)
            else (Rejects(r, NoResumablePosition) && c.activeStageId == "" && c.targetSummary == "")
                 || (Rejects(r, InvalidRequestedStage) && ctx.requestedStageId != "" && ctx.requestedStageId != c.activeStageId
                     && (c.activeStageId != "" || c.targetSummary != ""))
  {
    hide WorkflowSame, WorkflowMigratable;
    HalfDone(c);
    hide CommittedActiveTask;
  }

  lemma HalfDone(c: RunCheckpoint)
    ensures CommittedActiveTask(c) <==>
            exists e :: e in c.taskEffectRecords && e.taskId == c.activeTaskId && e.effectState == Committed && e.taskId !in c.completedTaskIds
  {
    if e :| e in c.taskEffectRecords && e.taskId == c.activeTaskId && e.effectState == Committed && e.taskId !in c.completedTaskIds {
      var i :| 0 <= i < |c.taskEffectRecords| && c.taskEffectRecords[i] == e;
    }
  }

  ghost predicate ActiveEffectIn(c: RunCheckpoint, state: SideEffectState) {
    exists e :: e in c.taskEffectRecords && e.taskId == c.activeTaskId && e.effectState == state
  }

  /** Why a replay is rejected: other versions, a stage that may not be repeated, or an effect of the active task. */
  lemma ReplaySays(c: RunCheckpoint, ctx: ResumeContext)
    requires ReplayRefusal(c, ctx).Some?
    ensures var r := ReplayRefusal(c, ctx).value;
            if c.workflowId != ctx.workflowId || c.workflowVersion != ctx.workflowVersion || c.planVersion != ctx.planVersion
            then Rejects(r, PlanIncompatible)
            else if !ctx.stageIdempotent then Rejects(r, NonIdempotentStage)
            else if ActiveEffectIn(c, Unknown) then Rejects(r, UnknownSideEffect)
            else Rejects(r, DuplicateSideEffect) && (ActiveEffectIn(c, Committed) || ActiveEffectIn(c, Started) || ActiveEffectIn(c, FailedAfterCommit))
  {
    var records := c.taskEffectRecords;
    if e :| e in records && e.taskId == c.activeTaskId && e.effectState == Unknown {
      var i :| 0 <= i < |records| && records[i] == e;
    }
    if !ReplaySafe(c) {
      var i :| 0 <= i < |records| && records[i].taskId == c.activeTaskId && BlocksReplay(records[i]);
      assert records[i] in records;
    }
  }

  /** What an admitted checkpoint in its place is told about each action. */
  lemma ActionSays(c: RunCheckpoint, ctx: ResumeContext, conf: Option<NoEffectConfirmation>, registry: CompatibilityRegistry, p: Platform)
    ensures var v := ActionVerdict(c, ctx, conf, registry, p);
            match v
            case Allows(action, reason) =>
              reason == (match action
                         case ResumeExact => AllowedExact
                         case ReplayFromStage => AllowedReplay
                         case ReplanFromCheckpoint => AllowedReplan
                         case AbandonAndRestart => AllowedAbandon)
            case Refused(r) =>
              && ctx.requestedAction != Some(AbandonAndRestart)
              && if PositionRefusal(c, ctx, registry).Some? then PositionRefusal(c, ctx, registry) == Some(r)
                 else if ctx.requestedAction == Some(ReplayFromStage) then ReplayRefusal(c, ctx) == Some(r)
                 else if ctx.requestedAction == Some(ReplanFromCheckpoint)
                 then Clarifies(r, UnknownSideEffect, ReplanUnsafe) && exists e :: e in c.taskEffectRecords && Unsafe(e)
                 else if ctx.requestedAction == Some(ResumeExact)
                         && (c.workflowId != ctx.workflowId || c.workflowVersion != ctx.workflowVersion || c.planVersion != ctx.planVersion)
                 then Rejects(r, PlanIncompatible)
                 else EffectRefusal(c, conf, p) == Some(r)
  {
    hide PositionRefusal, ReplayRefusal, EffectRefusal, Unsafe;
    RequestedCases(ctx.requestedAction);
  }
}

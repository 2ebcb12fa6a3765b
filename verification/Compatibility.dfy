/** Version comparison and the compatibility assessment a resume relies on. */
module Compatibility {
  import opened Text
  import opened Contracts

  /** The leading run of digits of `s`. */
  function Digits(s: string): string {
    if s != "" && IsDigit(s[0]) then [s[0]] + Digits(s[1..]) else ""
  }

  function DecimalValue(digits: string): nat
    requires forall i | 0 <= i < |digits| :: IsDigit(digits[i])
  {
    if digits == "" then 0
    else
      var last := digits[|digits| - 1];
      assert IsDigit(last);
      10 * DecimalValue(digits[..|digits| - 1]) + (last as int - '0' as int)
  }

  lemma {:induction false} DigitsAreDigits(s: string)
    ensures forall i | 0 <= i < |Digits(s)| :: IsDigit(Digits(s)[i])
  {
    if s != "" && IsDigit(s[0]) { DigitsAreDigits(s[1..]); }
  }

  /** Reads the major number of `1.2`, `v2.2A` or `1`; nothing when there is none. */
  function MajorVersion(version: string): Option<nat> {
    var body := StripLeft(version);
    var body := if body != "" && (body[0] == 'v' || body[0] == 'V') then body[1..] else body;
    DigitsAreDigits(body);
    if Digits(body) == "" then None else Some(DecimalValue(Digits(body)))
  }

  predicate AllDigits(s: string) { forall i :: 0 <= i < |s| ==> IsDigit(s[i]) }

  lemma {:induction false} DigitsThen(digits: string, rest: string)
    requires AllDigits(digits) && (rest == "" || !IsDigit(rest[0]))
    ensures Digits(digits + rest) == digits
  {
    if digits == "" {
      assert digits + rest == rest;
    } else {
      DigitsThen(digits[1..], rest);
      assert (digits + rest)[1..] == digits[1..] + rest;
    }
  }

  lemma {:induction false} BlanksGo(blanks: string, rest: string)
    requires IsBlank(blanks) && (rest == "" || !IsSpace(rest[0]))
    ensures StripLeft(blanks + rest) == rest
  {
    if blanks == "" {
      assert blanks + rest == rest;
    } else {
      BlanksGo(blanks[1..], rest);
      assert (blanks + rest)[1..] == blanks[1..] + rest;
    }
  }

  /** The number a version starts with, behind blanks and at most one `v` or `V`, whatever comes after its digits. */
  lemma MajorVersionReads(version: string, blanks: string, v: string, n: nat, rest: string)
    requires version == blanks + v + Decimal(n) + rest
    requires IsBlank(blanks) && v in {"", "v", "V"} && (rest == "" || !IsDigit(rest[0]))
    ensures MajorVersion(version) == Some(n)
  {
    hide Decimal, Digits, StripLeft;
    DecimalReadsBack(n);
    var number := Decimal(n) + rest;
    var body := v + number;
    assert version == blanks + body;
    assert IsDigit(number[0]);
    assert !IsSpace(body[0]);
    BlanksGo(blanks, body);
    DigitsThen(Decimal(n), rest);
    if v == "" {
      assert body == number;
    } else {
      assert body[0] == v[0] && body[1..] == number;
    }
  }

  lemma {:induction false} DecimalReadsBack(n: nat)
    ensures AllDigits(Decimal(n)) && Decimal(n) != ""
    ensures DecimalValue(Decimal(n)) == n
  {
    if n >= 10 { DecimalReadsBack(n / 10); }
  }

  /** A version has no major number exactly when no digit follows its blanks and its `v`. */
  lemma NoMajorVersion(blanks: string, v: string, rest: string)
    requires IsBlank(blanks) && v in {"", "v", "V"} && (rest == "" || !IsDigit(rest[0]))
    requires v == "" ==> rest == "" || (!IsSpace(rest[0]) && rest[0] != 'v' && rest[0] != 'V')
    ensures MajorVersion(blanks + v + rest) == None
  {
    var body := v + rest;
    assert blanks + v + rest == blanks + body;
    assert v != "" ==> body[0] == v[0] && body[1..] == rest;
    BlanksGo(blanks, body);
    hide StripLeft;
  }

  lemma SmallDecimals()
    ensures Decimal(1) == "1" && Decimal(2) == "2"
  {
  }

  /** `1.2` and `v1` share a major version, `2.0` does not, and a name without a number shares one with nothing. */
  lemma MajorsCompared()
    ensures SameMajor("1.2", "v1") && !SameMajor("2.0", "v1") && !SameMajor("beta", "beta")
  {
    SmallDecimals();
    hide MajorVersion, Decimal;
    MajorVersionReads("1.2", "", "", 1, ".2");
    MajorVersionReads("v1", "", "v", 1, "");
    MajorVersionReads("2.0", "", "", 2, ".0");
    NoMajorVersion("", "", "beta");
    assert "" + "" + "beta" == "beta";
  }

  datatype WorkflowMigration = WorkflowMigration(
    workflowId: string, fromVersion: string, toVersion: string, migrationId: string)

  datatype CompatibilityRegistry = CompatibilityRegistry(
    schemaVersion: string, contractVersion: string, migrations: seq<WorkflowMigration>)

  predicate Matches(m: WorkflowMigration, id: string, fromVersion: string, toVersion: string) {
    m.workflowId == id && m.fromVersion == fromVersion && m.toVersion == toVersion
  }

  /** The first declared migration that matches exactly. */
  function MigrationFor(migrations: seq<WorkflowMigration>, id: string, fromVersion: string, toVersion: string)
    : Option<WorkflowMigration>
  {
    if migrations == [] then None
    else if Matches(migrations[0], id, fromVersion, toVersion) then Some(migrations[0])
    else MigrationFor(migrations[1..], id, fromVersion, toVersion)
  }

  /** A migration is found exactly when one was declared for this workflow and these versions. */
  lemma {:induction false} MigrationForMeaning(ms: seq<WorkflowMigration>, id: string, fromVersion: string, toVersion: string)
    ensures MigrationFor(ms, id, fromVersion, toVersion).Some? <==>
            exists i :: 0 <= i < |ms| && Matches(ms[i], id, fromVersion, toVersion)
  {
    if ms != [] {
      MigrationForMeaning(ms[1..], id, fromVersion, toVersion);
      if i :| 0 <= i < |ms| && Matches(ms[i], id, fromVersion, toVersion) {
        assert i == 0 || ms[1..][i - 1] == ms[i];
      }
      if j :| 0 <= j < |ms[1..]| && Matches(ms[1..][j], id, fromVersion, toVersion) {
        assert ms[j + 1] == ms[1..][j];
      }
    }
  }

  predicate SameMajor(actual: string, expected: string) {
    MajorVersion(actual).Some? && MajorVersion(actual) == MajorVersion(expected)
  }

  datatype Assessment = Assessment(
    schemaCompatible: bool,
    contractCompatible: bool,
    workflowSame: bool,
    workflowMigratable: bool,
    planSame: bool,
    exactAllowed: bool,
    replayAllowed: bool,
    replanAllowed: bool,
    reason: Option<ResumeReason>,
    evidence: seq<RuntimeEvidence>)

  function Finding(kind: string, expected: string, observed: string, ok: bool, detail: string): RuntimeEvidence {
    RuntimeEvidence("compatibility", kind, expected, observed, if ok then "VERIFIED" else "MISMATCH", detail)
  }

  predicate WorkflowSame(c: RunCheckpoint, ctx: ResumeContext) {
    c.workflowId == ctx.workflowId && c.workflowVersion == ctx.workflowVersion
  }

  /** A migration was declared from the checkpoint's version of this workflow to the current one. */
  ghost predicate WorkflowMigratable(c: RunCheckpoint, ctx: ResumeContext, registry: CompatibilityRegistry) {
    && c.workflowId == ctx.workflowId
    && exists i :: 0 <= i < |registry.migrations|
                   && Matches(registry.migrations[i], c.workflowId, c.workflowVersion, ctx.workflowVersion)
  }

  ghost predicate VersionsReadable(c: RunCheckpoint, registry: CompatibilityRegistry) {
    SameMajor(c.schemaVersion, registry.schemaVersion) && SameMajor(c.contractVersion, registry.contractVersion)
  }

  /** The facts an assessment gathers; it stops at an unreadable schema or contract. */
  function Findings(c: RunCheckpoint, ctx: ResumeContext, registry: CompatibilityRegistry): seq<RuntimeEvidence> {
    var schemaOk, contractOk := SameMajor(c.schemaVersion, registry.schemaVersion), SameMajor(c.contractVersion, registry.contractVersion);
    var schema := Finding("checkpoint_schema", registry.schemaVersion, c.schemaVersion, schemaOk, "");
    var contract := Finding("contract_version", registry.contractVersion, c.contractVersion, contractOk, "");
    var migration :=
      if c.workflowId == ctx.workflowId then MigrationFor(registry.migrations, c.workflowId, c.workflowVersion, ctx.workflowVersion) else None;
    var workflow := Finding(
      "workflow_version", ctx.workflowId + "@" + ctx.workflowVersion, c.workflowId + "@" + c.workflowVersion,
      WorkflowSame(c, ctx) || migration.Some?, if migration.Some? then migration.value.migrationId else "");
    var plan := Finding("plan_version", ctx.planVersion, c.planVersion, c.planVersion == ctx.planVersion, "");
    if !schemaOk then [schema] else if !contractOk then [schema, contract] else [schema, contract, workflow, plan]
  }

  ghost predicate Reports(e: RuntimeEvidence, kind: string, expected: string, observed: string, ok: bool, detail: string) {
    && e.source == "compatibility" && e.kind == kind && e.expected == expected && e.observed == observed && e.detail == detail
    && e.status == if ok then "VERIFIED" else "MISMATCH"
  }

  /** What is reported: the schema, then if it is readable the contract, then if that is readable the workflow and the plan. */
  lemma FindingsReport(c: RunCheckpoint, ctx: ResumeContext, registry: CompatibilityRegistry)
    ensures var found := Findings(c, ctx, registry);
            var schemaOk := SameMajor(c.schemaVersion, registry.schemaVersion);
            var contractOk := SameMajor(c.contractVersion, registry.contractVersion);
            && |found| == (if !schemaOk then 1 else if !contractOk then 2 else 4)
            && Reports(found[0], "checkpoint_schema", registry.schemaVersion, c.schemaVersion, schemaOk, "")
            && (|found| > 1 ==> Reports(found[1], "contract_version", registry.contractVersion, c.contractVersion, contractOk, ""))
            && (|found| > 2 ==>
                  && Reports(found[2], "workflow_version", ctx.workflowId + "@" + ctx.workflowVersion, c.workflowId + "@" + c.workflowVersion,
                             WorkflowSame(c, ctx) || WorkflowMigratable(c, ctx, registry), found[2].detail)
                  && Reports(found[3], "plan_version", ctx.planVersion, c.planVersion, c.planVersion == ctx.planVersion, ""))
  {
    hide SameMajor;
    MigrationForMeaning(registry.migrations, c.workflowId, c.workflowVersion, ctx.workflowVersion);
  }

  /** The workflow finding names the first declared migration that was found, and nothing where none was. */
  lemma FindingNamesMigration(c: RunCheckpoint, ctx: ResumeContext, registry: CompatibilityRegistry)
    requires VersionsReadable(c, registry)
    ensures var detail := Findings(c, ctx, registry)[2].detail;
            if WorkflowMigratable(c, ctx, registry)
            then exists m :: m in registry.migrations && detail == m.migrationId
                   && m.workflowId == ctx.workflowId && m.fromVersion == c.workflowVersion && m.toVersion == ctx.workflowVersion
            else detail == ""
  {
    hide SameMajor;
    MigrationForMeaning(registry.migrations, c.workflowId, c.workflowVersion, ctx.workflowVersion);
    MigrationIsDeclared(registry.migrations, c.workflowId, c.workflowVersion, ctx.workflowVersion);
    hide MigrationFor;
  }

  lemma {:induction false} MigrationIsDeclared(ms: seq<WorkflowMigration>, id: string, fromVersion: string, toVersion: string)
    ensures var found := MigrationFor(ms, id, fromVersion, toVersion);
            found.Some? ==>
              found.value in ms && found.value.workflowId == id && found.value.fromVersion == fromVersion && found.value.toVersion == toVersion
  {
    if ms != [] { MigrationIsDeclared(ms[1..], id, fromVersion, toVersion); }
  }

  /** Compares versions and identity; an incompatible schema or contract denies everything. */
  method AssessCompatibility(c: RunCheckpoint, ctx: ResumeContext, registry: CompatibilityRegistry)
    returns (a: Assessment)
    ensures a.schemaCompatible == SameMajor(c.schemaVersion, registry.schemaVersion)
    ensures a.contractCompatible == VersionsReadable(c, registry)
    ensures a.evidence == Findings(c, ctx, registry)
    ensures a.planSame == (a.contractCompatible && c.planVersion == ctx.planVersion)
    ensures a.contractCompatible ==> a.workflowSame == WorkflowSame(c, ctx)
    ensures a.contractCompatible ==> a.workflowMigratable == WorkflowMigratable(c, ctx, registry)
    ensures a.contractCompatible ==> a.replanAllowed == (WorkflowSame(c, ctx) || WorkflowMigratable(c, ctx, registry))
    ensures a.contractCompatible ==> a.exactAllowed == a.replayAllowed == (WorkflowSame(c, ctx) && c.planVersion == ctx.planVersion)
    ensures !a.contractCompatible ==> !a.workflowSame && !a.workflowMigratable && !a.exactAllowed && !a.replayAllowed && !a.replanAllowed
    ensures a.reason ==
            if !a.schemaCompatible then Some(SchemaIncompatible)
            else if !a.contractCompatible then Some(ContractIncompatible)
            else if !WorkflowSame(c, ctx) && !WorkflowMigratable(c, ctx, registry) then Some(WorkflowIncompatible)
            else if c.planVersion != ctx.planVersion then Some(PlanIncompatible)
            else None
  {
    hide MajorVersion;
    var evidence := [];
    var schemaOk := SameMajor(c.schemaVersion, registry.schemaVersion);
    evidence := evidence + [Finding("checkpoint_schema", registry.schemaVersion, c.schemaVersion, schemaOk, "")];
    if !schemaOk {
      return Assessment(false, false, false, false, false, false, false, false, Some(SchemaIncompatible), evidence);
    }
    var contractOk := SameMajor(c.contractVersion, registry.contractVersion);
    evidence := evidence + [Finding("contract_version", registry.contractVersion, c.contractVersion, contractOk, "")];
    if !contractOk {
      return Assessment(true, false, false, false, false, false, false, false, Some(ContractIncompatible), evidence);
    }
    var idSame := c.workflowId == ctx.workflowId;
    var same := idSame && c.workflowVersion == ctx.workflowVersion;
    MigrationForMeaning(registry.migrations, c.workflowId, c.workflowVersion, ctx.workflowVersion);
    var migration :=
      if idSame then MigrationFor(registry.migrations, c.workflowId, c.workflowVersion, ctx.workflowVersion) else None;
    var migratable := migration.Some?;
    evidence := evidence + [Finding(
      "workflow_version", ctx.workflowId + "@" + ctx.workflowVersion, c.workflowId + "@" + c.workflowVersion,
      same || migratable, if migration.Some? then migration.value.migrationId else "")];
    var planSame := c.planVersion == ctx.planVersion;
    evidence := evidence + [Finding("plan_version", ctx.planVersion, c.planVersion, planSame, "")];
    var reason :=
      if !idSame then Some(WorkflowIncompatible)
      else if !same && !migratable then Some(WorkflowIncompatible)
      else if !planSame then Some(PlanIncompatible)
      else None;
    return Assessment(true, true, same, migratable, planSame, same && planSame, same && planSame,
                      same || migratable, reason, evidence);
  }
}

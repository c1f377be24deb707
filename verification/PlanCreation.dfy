/** `create_plan` as a whole, and when it makes a plan (src/engine.rs:95-201). */
module PlanCreation {
  import opened Wrappers
  import opened Json
  import opened Utf8
  import opened Codec
  import opened Integrity
  import opened Model
  import opened Receipt
  import opened Journal
  import opened Fingerprint
  import opened Db
  import opened Sql
  import opened Engine

  // ---------------------------------------------------------------- plan

  datatype PlanOptions = PlanOptions(
    limits: Limits,
    lifetimeMs: U64,
    allowTriggers: bool,
    allowRowSecurity: bool)

  /** The answers of the read-only transaction that a plan is made in. */
  datatype PlanAnswers = PlanAnswers(
    connected: Result<TransportPolicy>,
    began: Result<()>,
    bounded: Result<()>,
    identity: Result<DatabaseIdentity>,
    evidence: Result<TableEvidence>,
    count: Result<int>,
    rows: Stream,
    explain: Result<Json>,
    committed: Result<()>)

  /** The count: the query's answer, or the number of rows an INSERT lists. */
  function TargetCount(a: AnalyzedSql, answer: Result<int>): Result<nat> {
    if a.details.count.None? then Ok(a.details.insertedRows)
    else if answer.Err? then Err(AppError(Io, "target_count_failed"))
    else if answer.value < 0 then ContractError("target_count_invalid")
    else Ok(answer.value)
  }

  function TargetSet(hash: Hasher, a: AnalyzedSql, rows: Stream, count: nat): Result<string> {
    TargetSetOutcome(hash, a.normalized, if a.details.targetRows.Some? then Some(rows) else None, count)
  }

  function PlanOf(hash: Hasher, a: AnalyzedSql, o: PlanOptions, t: TransportPolicy, d: DatabaseIdentity, e: TableEvidence,
                  count: U64, setHash: string, explain: Json, now: U64): Plan
    requires now + o.lifetimeMs <= U64_MAX && |e.userTriggers| <= U64_MAX && |e.rewriteRules| <= U64_MAX
  {
    var schemaHash := TableSchemaSha256(hash, e);
    Plan(PLAN_SCHEMA_VERSION, TOOL_VERSION,
         Sha256(hash, a.normalizedSqlSha256 + ":" + schemaHash + ":" + Decimal(count) + ":" + Decimal(now)),
         now, now + o.lifetimeMs, a.details.kind, a.requestedTable, a.sqlFileSha256, a.normalizedSqlSha256,
         a.countQuerySha256, a.targetQuerySha256, Sha256Json(hash, explain), o.limits, t, o.allowTriggers,
         o.allowRowSecurity,
         PlanPreconditions(d, CanonicalTable(e), schemaHash, count, setHash, e.relationKind, |e.userTriggers|,
                           |e.rewriteRules|, e.rowSecurity || e.forceRowSecurity),
         None)
  }

  /** The count, the fingerprint and the clock, in the order of `create_plan`. */
  function ObservedPlan(hash: Hasher, a: AnalyzedSql, o: PlanOptions, transport: TransportPolicy, d: DatabaseIdentity,
                        e: TableEvidence, w: PlanAnswers, clock: Clock): Result<Plan>
    requires |e.userTriggers| <= U64_MAX && |e.rewriteRules| <= U64_MAX
  {
    var count :- TargetCount(a, w.count);
    if count > o.limits.maxRows then Err(AppError(Budget, "row_budget_exceeded"))
    else
      var setHash :- TargetSet(hash, a, w.rows, count);
      var explain :- w.explain;
      var _ :- w.committed;
      var now :- UnixMs(clock);
      if now + o.lifetimeMs > U64_MAX then Err(AppError(Usage, "plan_expiry_overflow"))
      else Ok(SealedPlan(hash, PlanOf(hash, a, o, transport, d, e, count, setHash, explain, now)))
  }

  /** The checks of `create_plan` in their order. */
  function PlanChecks(hash: Hasher, g: Grammar, blank: string -> bool, o: PlanOptions, raw: string, w: PlanAnswers,
                      clock: Clock): Result<Plan>
    requires w.evidence.Ok? ==> |w.evidence.value.userTriggers| <= U64_MAX && |w.evidence.value.rewriteRules| <= U64_MAX
  {
    if LimitsError(o.limits).Some? then Err(LimitsError(o.limits).value)
    else if o.lifetimeMs == 0 || o.lifetimeMs > MAX_PLAN_LIFETIME_MS then Err(AppError(Usage, "plan_lifetime_invalid"))
    else
      var a :- AnalyzeSql(hash, g, blank, raw);
      var transport :- w.connected;
      var _ :- w.began;
      var _ :- w.bounded;
      var d :- w.identity;
      if d.serverVersionNum < MIN_POSTGRES_VERSION_NUM then Err(AppError(Policy, "postgres_version_unsupported"))
      else
        var e :- w.evidence;
        var policy := TablePolicyError(e, a.details.kind, o.allowTriggers, o.allowRowSecurity);
        if policy.Some? then Err(policy.value) else ObservedPlan(hash, a, o, transport, d, e, w, clock)
  }

  // ---------------------------------------------------------------- when a plan is made

  /** The statement of the file, if it is one statement inside the boundary. */
  predicate Plannable(g: Grammar, blank: string -> bool, raw: string) {
    && |raw| <= 1_048_576 && !blank(raw)
    && g.parse(raw).Some? && |g.parse(raw).value| == 1 && Acceptable(g.parse(raw).value[0])
  }

  predicate LimitsInRange(l: Limits) {
    && 1 <= l.maxRows <= 1_000_000 && 100 <= l.statementTimeoutMs <= 600_000
    && 1 <= l.lockTimeoutMs <= 60_000 && l.lockTimeoutMs <= l.statementTimeoutMs
  }

  /** Limits and lifetime are in range. */
  predicate OptionsInRange(o: PlanOptions) {
    LimitsInRange(o.limits) && 1 <= o.lifetimeMs <= 86_400_000
  }

  predicate NoCallFails(w: PlanAnswers) {
    && w.connected.Ok? && w.began.Ok? && w.bounded.Ok? && w.identity.Ok? && w.evidence.Ok?
    && w.explain.Ok? && w.committed.Ok?
  }

  /** The count and the row texts agree with each other and with the budgets; an INSERT is counted by its rows. */
  predicate RowsInBudget(d: Details, o: PlanOptions, w: PlanAnswers) {
    && (if d.count.Some? then w.count.Ok? && 0 <= w.count.value <= o.limits.maxRows else d.insertedRows <= o.limits.maxRows)
    && (d.targetRows.Some? ==>
          !w.rows.broken && FramedSize(w.rows.texts) <= 67_108_864
          && Ok(|w.rows.texts|) == (if d.count.Some? then w.count else Ok(d.insertedRows)))
  }

  /** Everything that a plan presupposes, without reference to the order of the checks. */
  predicate PlanPasses(g: Grammar, blank: string -> bool, o: PlanOptions, raw: string, w: PlanAnswers, clock: Clock) {
    && OptionsInRange(o) && Plannable(g, blank, raw) && NoCallFails(w)
    && w.identity.value.serverVersionNum >= 130_000
    && AnalyzeStatement(g.parse(raw).value[0]).Ok?
    && clock.At? && clock.now + o.lifetimeMs <= 0xFFFF_FFFF_FFFF_FFFF
    && var d := AnalyzeStatement(g.parse(raw).value[0]).value;
       Admissible(w.evidence.value, d.kind, o.allowTriggers, o.allowRowSecurity) && RowsInBudget(d, o, w)
  }

  lemma OptionsExactly(o: PlanOptions)
    ensures OptionsInRange(o) <==> LimitsError(o.limits).None? && 1 <= o.lifetimeMs <= MAX_PLAN_LIFETIME_MS
  {
  }

  lemma AnalysisExactly(hash: Hasher, g: Grammar, blank: string -> bool, raw: string)
    ensures AnalyzeSql(hash, g, blank, raw).Ok? <==> Plannable(g, blank, raw)
    ensures Plannable(g, blank, raw) ==>
              AnalyzeStatement(g.parse(raw).value[0]) == Ok(AnalyzeSql(hash, g, blank, raw).value.details)
  {
    hide Acceptable, AnalyzeStatement, Sha256, CountText, TargetText;
    if g.parse(raw).Some? && |g.parse(raw).value| == 1 {
      AcceptsExactly(g.parse(raw).value[0]);
    }
  }

  lemma RowsExactly(hash: Hasher, a: AnalyzedSql, o: PlanOptions, w: PlanAnswers)
    ensures RowsInBudget(a.details, o, w) <==>
            && TargetCount(a, w.count).Ok? && TargetCount(a, w.count).value <= o.limits.maxRows
            && TargetSet(hash, a, w.rows, TargetCount(a, w.count).value).Ok?
  {
    hide Sha256, Buffer, FramedSize;
  }

  /** A plan is made exactly when everything that it presupposes holds. */
  lemma PlanExactly(hash: Hasher, g: Grammar, blank: string -> bool, o: PlanOptions, raw: string, w: PlanAnswers,
                    clock: Clock)
    requires w.evidence.Ok? ==> |w.evidence.value.userTriggers| <= U64_MAX && |w.evidence.value.rewriteRules| <= U64_MAX
    ensures PlanChecks(hash, g, blank, o, raw, w, clock).Ok? <==> PlanPasses(g, blank, o, raw, w, clock)
  {
    hide AnalyzeSql, Plannable, AnalyzeStatement, OptionsInRange, LimitsError, RowsInBudget, TargetCount, TargetSet;
    hide Admissible, TablePolicyError, SealedPlan, PlanOf;
    OptionsExactly(o);
    AnalysisExactly(hash, g, blank, raw);
    if Plannable(g, blank, raw) {
      assert g.parse(raw).Some? && |g.parse(raw).value| == 1 by { IsPlannable(g, blank, raw); }
      var a := AnalyzeSql(hash, g, blank, raw).value;
      RowsExactly(hash, a, o, w);
      if w.evidence.Ok? {
        PolicyExactly(w.evidence.value, a.details.kind, o.allowTriggers, o.allowRowSecurity);
      }
    }
  }

  lemma IsPlannable(g: Grammar, blank: string -> bool, raw: string)
    requires Plannable(g, blank, raw)
    ensures g.parse(raw).Some? && |g.parse(raw).value| == 1
  {
    hide Acceptable;
  }

  /** The checks of the limits in their order. */
  function LimitFindings(l: Limits): seq<Option<AppError>> {
    [ If(l.maxRows < 1 || l.maxRows > 1_000_000, Usage, "max_rows_invalid"),
      If(l.statementTimeoutMs < 100 || l.statementTimeoutMs > 600_000 || l.lockTimeoutMs < 1 || l.lockTimeoutMs > 60_000
         || l.lockTimeoutMs > l.statementTimeoutMs, Usage, "timeout_invalid")]
  }

  /** The calls up to the inspection of the table. */
  function CallFindings(w: PlanAnswers): seq<Option<AppError>> {
    [ ErrorOf(w.connected), ErrorOf(w.began), ErrorOf(w.bounded), ErrorOf(w.identity),
      If(w.identity.Ok? && w.identity.value.serverVersionNum < 130_000, Policy, "postgres_version_unsupported"),
      ErrorOf(w.evidence)]
  }

  /** The later checks, on the rows and the clock. */
  function RowFindings(d: Details, o: PlanOptions, w: PlanAnswers, clock: Clock): seq<Option<AppError>> {
    var counted, listed := d.count.Some?, d.targetRows.Some?;
    var count := if !counted then d.insertedRows else if w.count.Ok? then w.count.value else 0;
    [ If(counted && w.count.Err?, Io, "target_count_failed"),
      If(count < 0, Contract, "target_count_invalid"),
      If(count > o.limits.maxRows, Budget, "row_budget_exceeded"),
      If(listed && FramedSize(w.rows.texts) > 67_108_864, Budget, "target_evidence_bytes_exceeded"),
      If(listed && w.rows.broken, Io, "target_evidence_query_failed"),
      If(listed && |w.rows.texts| != count, Contract, "target_evidence_count_mismatch"),
      ErrorOf(w.explain),
      ErrorOf(w.committed),
      If(clock.BeforeEpoch?, Io, "clock_before_epoch"),
      If(clock.OutOfRange?, Io, "clock_out_of_range"),
      If(clock.At? && clock.now + o.lifetimeMs > 0xFFFF_FFFF_FFFF_FFFF, Usage, "plan_expiry_overflow")]
  }

  /** All checks in the order of the program; those of a statement only if the file has one that is accepted. */
  function PlanFindings(g: Grammar, blank: string -> bool, o: PlanOptions, raw: string, w: PlanAnswers, clock: Clock)
    : seq<Option<AppError>>
  {
    LimitFindings(o.limits)
    + [If(o.lifetimeMs < 1 || o.lifetimeMs > 86_400_000, Usage, "plan_lifetime_invalid")]
    + FileFindings(g, blank, raw)
    + CallFindings(w)
    + if Plannable(g, blank, raw) && AnalyzeStatement(g.parse(raw).value[0]).Ok? && w.evidence.Ok? then
        var d := AnalyzeStatement(g.parse(raw).value[0]).value;
        PolicyFindings(w.evidence.value, d.kind, o.allowTriggers, o.allowRowSecurity) + RowFindings(d, o, w, clock)
      else []
  }

  lemma LimitReport(l: Limits)
    ensures Report(LimitFindings(l), 0) == LimitsError(l)
  {
    var f := LimitFindings(l);
    var _ := [Report(f, 1), Report(f, 2)];
  }

  lemma RowReport(hash: Hasher, a: AnalyzedSql, o: PlanOptions, t: TransportPolicy, d: DatabaseIdentity, e: TableEvidence,
                  w: PlanAnswers, clock: Clock)
    requires |e.userTriggers| <= U64_MAX && |e.rewriteRules| <= U64_MAX
    ensures Report(RowFindings(a.details, o, w, clock), 0) == ErrorOf(ObservedPlan(hash, a, o, t, d, e, w, clock))
  {
    hide SealedPlan, PlanOf, Sha256, Buffer, FramedSize;
    var f := RowFindings(a.details, o, w, clock);
    var _ := [Report(f, 1), Report(f, 2), Report(f, 3), Report(f, 4), Report(f, 5), Report(f, 6), Report(f, 7), Report(f, 8),
              Report(f, 9), Report(f, 10), Report(f, 11)];
  }

  lemma CallReport(w: PlanAnswers)
    ensures Report(CallFindings(w), 0).None? ==>
              && w.connected.Ok? && w.began.Ok? && w.bounded.Ok? && w.identity.Ok? && w.evidence.Ok?
              && w.identity.value.serverVersionNum >= MIN_POSTGRES_VERSION_NUM
    ensures Report(CallFindings(w), 0)
         == if w.connected.Err? then Some(w.connected.error)
            else if w.began.Err? then Some(w.began.error)
            else if w.bounded.Err? then Some(w.bounded.error)
            else if w.identity.Err? then Some(w.identity.error)
            else if w.identity.value.serverVersionNum < MIN_POSTGRES_VERSION_NUM then
              Some(AppError(Policy, "postgres_version_unsupported"))
            else ErrorOf(w.evidence)
  {
    var f := CallFindings(w);
    var _ := [Report(f, 1), Report(f, 2), Report(f, 3), Report(f, 4), Report(f, 5), Report(f, 6)];
  }

  /** The checks together report what the program reports. */
  lemma PlanReport(hash: Hasher, g: Grammar, blank: string -> bool, o: PlanOptions, raw: string, w: PlanAnswers, clock: Clock)
    requires w.evidence.Ok? ==> |w.evidence.value.userTriggers| <= U64_MAX && |w.evidence.value.rewriteRules| <= U64_MAX
    ensures Report(PlanFindings(g, blank, o, raw, w, clock), 0) == ErrorOf(PlanChecks(hash, g, blank, o, raw, w, clock))
  {
    hide AnalyzeSql, LimitsError, TablePolicyError, ObservedPlan, LimitFindings, FileFindings, CallFindings, PolicyFindings;
    hide RowFindings, Plannable, AnalyzeStatement;
    var lifetime := [If(o.lifetimeMs < 1 || o.lifetimeMs > 86_400_000, Usage, "plan_lifetime_invalid")];
    var _ := Report(lifetime, 1);
    var file, calls := FileFindings(g, blank, raw), CallFindings(w);
    LimitReport(o.limits);
    AnalysisReport(hash, g, blank, raw);
    AnalysisExactly(hash, g, blank, raw);
    CallReport(w);
    ReportAppend(LimitFindings(o.limits), lifetime);
    ReportAppend(LimitFindings(o.limits) + lifetime, file);
    ReportAppend(LimitFindings(o.limits) + lifetime + file, calls);
    if AnalyzeSql(hash, g, blank, raw).Ok? && w.evidence.Ok? {
      assert g.parse(raw).Some? && |g.parse(raw).value| == 1 by { IsPlannable(g, blank, raw); }
      var a, e := AnalyzeSql(hash, g, blank, raw).value, w.evidence.value;
      PolicyReport(e, a.details.kind, o.allowTriggers, o.allowRowSecurity);
      var policy := PolicyFindings(e, a.details.kind, o.allowTriggers, o.allowRowSecurity);
      if w.connected.Ok? && w.identity.Ok? {
        RowReport(hash, a, o, w.connected.value, w.identity.value, e, w, clock);
      }
      ReportAppend(policy, RowFindings(a.details, o, w, clock));
      ReportAppend(LimitFindings(o.limits) + lifetime + file + calls, policy + RowFindings(a.details, o, w, clock));
    } else {
      ReportAppend(LimitFindings(o.limits) + lifetime + file + calls, []);
    }
  }

  /** If no plan is made, the error is that of the first check that finds something. */
  lemma PlanErrorExactly(hash: Hasher, g: Grammar, blank: string -> bool, o: PlanOptions, raw: string, w: PlanAnswers,
                         clock: Clock, e: AppError)
    requires w.evidence.Ok? ==> |w.evidence.value.userTriggers| <= U64_MAX && |w.evidence.value.rewriteRules| <= U64_MAX
    ensures PlanChecks(hash, g, blank, o, raw, w, clock) == Err(e) <==> Reports(PlanFindings(g, blank, o, raw, w, clock), e)
  {
    hide PlanChecks, PlanFindings, Reports;
    PlanReport(hash, g, blank, o, raw, w, clock);
    ReportIs(PlanFindings(g, blank, o, raw, w, clock), e);
  }

  /** The count and the fingerprint are those of the queries, or of the statement itself for an INSERT. */
  predicate RowsRecorded(hash: Hasher, pre: PlanPreconditions, a: AnalyzedSql, w: PlanAnswers) {
    && (if a.details.count.Some? then w.count == Ok(pre.targetCount) else pre.targetCount == a.details.insertedRows)
    && pre.targetSetSha256
       == Sha256(hash, if a.details.targetRows.Some? then Buffer(w.rows.texts) else a.normalized)
  }

  /** The preconditions are those of the observed table and session. */
  predicate TableRecorded(hash: Hasher, pre: PlanPreconditions, d: DatabaseIdentity, e: TableEvidence) {
    && pre.database == d && pre.canonicalTable == CanonicalTable(e)
    && pre.tableSchemaSha256 == Sha256(hash, Print(EvidenceJson(e), Compact))
    && pre.relationKind == e.relationKind && pre.userTriggerCount == |e.userTriggers|
    && pre.rewriteRuleCount == |e.rewriteRules| && (pre.rowSecurity <==> e.rowSecurity || e.forceRowSecurity)
  }

  /** The plan is for this SQL, with these options, at this time. */
  predicate RequestRecorded(hash: Hasher, plan: Plan, a: AnalyzedSql, o: PlanOptions, t: TransportPolicy, explain: Json, now: U64) {
    && plan.schemaVersion == "dmlpact.plan.v1" && plan.toolVersion == "0.3.0"
    && plan.planId
       == Sha256(hash, a.normalizedSqlSha256 + ":" + plan.preconditions.tableSchemaSha256 + ":"
                       + Decimal(plan.preconditions.targetCount) + ":" + Decimal(now))
    && plan.createdAtUnixMs == now && plan.expiresAtUnixMs == now + o.lifetimeMs
    && plan.statementKind == a.details.kind && plan.requestedTable == a.requestedTable
    && plan.sqlFileSha256 == a.sqlFileSha256 && plan.normalizedSqlSha256 == a.normalizedSqlSha256
    && plan.countQuerySha256 == a.countQuerySha256 && plan.targetQuerySha256 == a.targetQuerySha256
    && plan.explainSha256 == Sha256(hash, Print(explain, Compact))
    && plan.limits == o.limits && plan.transportPolicy == t
    && (plan.allowTriggers <==> o.allowTriggers) && (plan.allowRowSecurity <==> o.allowRowSecurity)
  }

  /** What a made plan records, field by field. */
  lemma MadePlanRecords(hash: Hasher, g: Grammar, blank: string -> bool, o: PlanOptions, raw: string, w: PlanAnswers,
                        clock: Clock)
    requires w.evidence.Ok? ==> |w.evidence.value.userTriggers| <= U64_MAX && |w.evidence.value.rewriteRules| <= U64_MAX
    requires PlanChecks(hash, g, blank, o, raw, w, clock).Ok?
    ensures AnalyzeSql(hash, g, blank, raw).Ok? && NoCallFails(w) && clock.At?
    ensures var plan, a := PlanChecks(hash, g, blank, o, raw, w, clock).value, AnalyzeSql(hash, g, blank, raw).value;
      && RequestRecorded(hash, plan, a, o, w.connected.value, w.explain.value, clock.now)
      && TableRecorded(hash, plan.preconditions, w.identity.value, w.evidence.value)
      && RowsRecorded(hash, plan.preconditions, a, w)
      && plan.planSha256 == Some(Sha256(hash, PlanContent(plan)))
  {
    hide AnalyzeSql, TablePolicyError, CanonicalTable, Sha256, PlanContent, EvidenceJson, Print, Decimal, LimitsError, Buffer;
    hide FramedSize;
    var plan := PlanChecks(hash, g, blank, o, raw, w, clock).value;
    SealKeepsContent(hash, plan.(planSha256 := None));
  }

  lemma SealKeepsContent(hash: Hasher, plan: Plan)
    ensures PlanContent(SealedPlan(hash, plan)) == PlanContent(plan)
  {
    hide PlanJson, Print;
    assert SealedPlan(hash, plan).(planSha256 := None) == plan.(planSha256 := None);
  }

  /** A sealed plan within the limits, for this SQL and until then. */
  predicate Usable(hash: Hasher, plan: Plan, a: AnalyzedSql, expires: nat) {
    && VerifiedPlanSha256(hash, plan).Ok? && plan.planSha256 == Some(VerifiedPlanSha256(hash, plan).value)
    && LimitsError(plan.limits).None? && BindingError(plan, a).None?
    && plan.expiresAtUnixMs == expires
  }

  /** A plan that is made verifies, keeps the limits, fits its own SQL and is live for its lifetime. */
  lemma MadePlanIsUsable(hash: Hasher, g: Grammar, blank: string -> bool, o: PlanOptions, raw: string, w: PlanAnswers,
                         clock: Clock)
    requires w.evidence.Ok? ==> |w.evidence.value.userTriggers| <= U64_MAX && |w.evidence.value.rewriteRules| <= U64_MAX
    requires PlanChecks(hash, g, blank, o, raw, w, clock).Ok?
    ensures AnalyzeSql(hash, g, blank, raw).Ok? && clock.At?
    ensures Usable(hash, PlanChecks(hash, g, blank, o, raw, w, clock).value, AnalyzeSql(hash, g, blank, raw).value,
                   clock.now + o.lifetimeMs)
  {
    hide AnalyzeSql, TablePolicyError, TableSchemaSha256, CanonicalTable, Sha256, Sha256Json, TargetSetOutcome, PlanContent;
    hide Decimal;
    var a := AnalyzeSql(hash, g, blank, raw).value;
    var e := w.evidence.value;
    var count := TargetCount(a, w.count).value;
    SealVerifies(hash, PlanOf(hash, a, o, w.connected.value, w.identity.value, e, count,
                              TargetSet(hash, a, w.rows, count).value, w.explain.value, clock.now));
  }

  /** The program: call by call, then seal. */
  method CreatePlan(hash: Hasher, g: Grammar, blank: string -> bool, o: PlanOptions, raw: string, w: PlanAnswers,
                    clock: Clock)
    returns (r: Result<Plan>)
    requires w.evidence.Ok? ==> |w.evidence.value.userTriggers| <= U64_MAX && |w.evidence.value.rewriteRules| <= U64_MAX
    requires TextsFit(w.rows.texts)
    ensures r == PlanChecks(hash, g, blank, o, raw, w, clock)
    ensures r.Ok? <==> PlanPasses(g, blank, o, raw, w, clock)
    ensures r.Err? ==> Reports(PlanFindings(g, blank, o, raw, w, clock), r.error)
  {
    hide Reports, PlanFindings;
    hide PlanPasses, AnalyzeSql, TablePolicyError, TableSchemaSha256, CanonicalTable, Sha256, Sha256Json, TargetSetOutcome;
    hide PlanContent;
    PlanExactly(hash, g, blank, o, raw, w, clock);
    if PlanChecks(hash, g, blank, o, raw, w, clock).Err? {
      PlanErrorExactly(hash, g, blank, o, raw, w, clock, PlanChecks(hash, g, blank, o, raw, w, clock).error);
    }
    hide Decimal, LimitsError;
    if LimitsError(o.limits).Some? {
      return Err(LimitsError(o.limits).value);
    }
    if o.lifetimeMs == 0 || o.lifetimeMs > MAX_PLAN_LIFETIME_MS {
      return Err(AppError(Usage, "plan_lifetime_invalid"));
    }
    var a :- AnalyzeSql(hash, g, blank, raw);
    var transport :- w.connected;
    var _ :- w.began;
    var _ :- w.bounded;
    var identity :- w.identity;
    if identity.serverVersionNum < MIN_POSTGRES_VERSION_NUM {
      return Err(AppError(Policy, "postgres_version_unsupported"));
    }
    var evidence :- w.evidence;
    var policy := TablePolicyError(evidence, a.details.kind, o.allowTriggers, o.allowRowSecurity);
    if policy.Some? {
      return Err(policy.value);
    }
    var count :- TargetCount(a, w.count);
    if count > o.limits.maxRows {
      return Err(AppError(Budget, "row_budget_exceeded"));
    }
    var digest := TargetSetSha256(hash, a.normalized, if a.details.targetRows.Some? then Some(w.rows) else None, count);
    var setHash :- digest;
    var explain :- w.explain;
    var _ :- w.committed;
    var now :- UnixMs(clock);
    if now + o.lifetimeMs > U64_MAX {
      return Err(AppError(Usage, "plan_expiry_overflow"));
    }
    var document := new PlanDocument(PlanOf(hash, a, o, transport, identity, evidence, count, setHash, explain, now));
    document.Seal(hash);
    r := Ok(document.plan);
  }
}

/** Where a plan comes from: what its read-only snapshot shows, and what the plan then records. */
module Planning {
  import opened Wrappers
  import opened Json
  import opened Integrity
  import opened Model
  import opened Receipt
  import opened Journal
  import opened Fingerprint
  import opened Db
  import opened Sql
  import opened SqlMeaning
  import opened Evidence
  import opened Engine
  import opened PlanCreation
  import opened Outcome
  import opened Apply
  import opened Protocol
  import opened ProtocolInvariant

  /** One run of `create_plan`: its input, the answers it got, and the database it read. */
  datatype Planning = Planning(
    grammar: Grammar,
    blank: string -> bool,
    options: PlanOptions,
    raw: string,
    answers: PlanAnswers,
    clock: Clock,
    identity: DatabaseIdentity,
    db: Database)

  predicate Countable(w: PlanAnswers) {
    w.evidence.Ok? ==> |w.evidence.value.userTriggers| <= U64_MAX && |w.evidence.value.rewriteRules| <= U64_MAX
  }

  /** The table that the statement means in the planning snapshot. */
  function Target(s: Server, p: Planning, a: AnalyzedSql): Option<Relation> {
    var o :- Resolve(s.path(p.identity), p.db, a.details.table);
    if o in p.db.tables then Some(p.db.tables[o]) else None
  }

  /** The answers are those of one snapshot; on a table that is not plain, rows are not predicted. */
  ghost predicate Sees(s: Server, p: Planning, a: AnalyzedSql) {
    var w, rel := p.answers, Target(s, p, a);
    && rel.Some? && w.identity == Ok(p.identity) && w.evidence == Ok(rel.value.evidence)
    && (Plain(rel.value.evidence) ==>
          && (w.count.Ok? && a.details.count.Some? ==>
                CountRows(rel.value.rows, a.details.count.value, s.env(p.identity, p.db)) == Some(w.count.value))
          && (!w.rows.broken && a.details.targetRows.Some? ==>
                var q := a.details.targetRows.value;
                var picked := Selected(rel.value.rows, q.selection, s.env(p.identity, p.db));
                picked.Some? && w.rows == StreamFor(s, p.identity, q, picked.value)))
  }

  /** The plan is the one that this run of `create_plan` made. */
  ghost predicate MadeBy(s: Server, hash: Hasher, p: Planning, plan: Plan) {
    && Countable(p.answers) && CatalogOk(p.db)
    && PlanChecks(hash, p.grammar, p.blank, p.options, p.raw, p.answers, p.clock) == Ok(plan)
    && AnalyzeSql(hash, p.grammar, p.blank, p.raw).Ok?
    && Sees(s, p, AnalyzeSql(hash, p.grammar, p.blank, p.raw).value)
  }

  function Analyzed(hash: Hasher, p: Planning): AnalyzedSql
    requires AnalyzeSql(hash, p.grammar, p.blank, p.raw).Ok?
  {
    AnalyzeSql(hash, p.grammar, p.blank, p.raw).value
  }

  lemma AnalyzedIsDerived(hash: Hasher, g: Grammar, blank: string -> bool, raw: string)
    requires AnalyzeSql(hash, g, blank, raw).Ok?
    ensures var a := AnalyzeSql(hash, g, blank, raw).value;
      AnalyzeStatement(a.statement) == Ok(a.details) && a.sqlFileSha256 == Sha256(hash, raw)
  {
    hide AnalyzeStatement, Sha256, CountText, TargetText;
  }

  /**
   The runs of the protocol are the runs of the program: when the checks pass and the receipt is created, the
   run, with this prepared event, is one that may arrive.
   */
  lemma StartedIsArriving(hash: Hasher, g: Grammar, blank: string -> bool, planBytes: string, raw: string, insecure: bool,
                          clocks: (Clock, Clock), free: bool, disk: Disk, d: DatabaseIdentity)
    requires Started(ApplyContext(hash, g, blank, planBytes, raw, insecure, clocks.0), clocks.1, free, disk).Ok?
    ensures var check := ApplyContext(hash, g, blank, planBytes, raw, insecure, clocks.0);
      var (c, prepared) := Started(check, clocks.1, free, disk).value;
      && Arriving(Run(c, d, Preparing, CLOSED, prepared, None, "", 0, None))
      && c.hash == hash && c.insecure == insecure && AnalyzeSql(hash, g, blank, raw) == Ok(c.analyzed)
      && ReadPlan(hash, planBytes) == Ok(c.plan)
  {
    hide ApplyContext, Admitted, ReceiptId, EventSha256, VerifiedPlanSha256, AnalyzeSql, ReadPlan;
    assert ApplyContext(hash, g, blank, planBytes, raw, insecure, clocks.0).Ok?;
    ContextIsAdmitted(hash, g, blank, planBytes, raw, insecure, clocks.0);
  }

  /** The checks before the receipt admit the run. */
  lemma ContextIsAdmitted(hash: Hasher, g: Grammar, blank: string -> bool, planBytes: string, raw: string, insecure: bool,
                          clock: Clock)
    requires ApplyContext(hash, g, blank, planBytes, raw, insecure, clock).Ok?
    ensures var c := ApplyContext(hash, g, blank, planBytes, raw, insecure, clock).value;
      && Admitted(c) && c.hash == hash && c.insecure == insecure
      && AnalyzeSql(hash, g, blank, raw) == Ok(c.analyzed) && ReadPlan(hash, planBytes) == Ok(c.plan)
  {
    hide ReadPlan, AnalyzeSql, LimitsError, BindingError, AnalyzeStatement, VerifiedPlanSha256;
    PlanVerified(hash, planBytes);
    AnalyzedIsDerived(hash, g, blank, raw);
  }

  /** What the fields of a made plan are. */
  lemma PlanRecords(s: Server, hash: Hasher, p: Planning, plan: Plan)
    requires MadeBy(s, hash, p, plan)
    ensures var a, pre := Analyzed(hash, p), plan.preconditions; var e := Target(s, p, a).value.evidence;
      && plan.sqlFileSha256 == a.sqlFileSha256
      && pre.database == p.identity
      && pre.canonicalTable == CanonicalTable(e)
      && pre.tableSchemaSha256 == TableSchemaSha256(hash, e)
      && TablePolicyError(e, a.details.kind, plan.allowTriggers, plan.allowRowSecurity).None?
      && TargetCount(a, p.answers.count) == Ok(pre.targetCount)
      && pre.targetCount <= plan.limits.maxRows
      && TargetSet(hash, a, p.answers.rows, pre.targetCount) == Ok(pre.targetSetSha256)
      && Ok(plan.transportPolicy) == p.answers.connected
  {
    hide AnalyzeSql, TablePolicyError, TableSchemaSha256, CanonicalTable, Sha256, Sha256Json, TargetSetOutcome;
    hide Decimal, LimitsError, PlanContent, TargetCount, Plain;
  }

  /** The rows that the statement selected at plan time. */
  function PlannedRows(s: Server, hash: Hasher, p: Planning): Option<seq<Row>>
    requires AnalyzeSql(hash, p.grammar, p.blank, p.raw).Ok?
  {
    var a := Analyzed(hash, p);
    if a.details.targetRows.None? || Target(s, p, a).None? then None
    else Selected(Target(s, p, a).value.rows, a.details.targetRows.value.selection, HomeEnv(s, p.identity))
  }

  /** The fingerprint of an unacknowledged UPDATE or DELETE plan is that of the rows it selected when it was made. */
  lemma PlanFingerprint(s: Server, hash: Hasher, p: Planning, plan: Plan)
    requires Trusted(s) && MadeBy(s, hash, p, plan) && !plan.allowTriggers && !plan.allowRowSecurity
    requires Analyzed(hash, p).details.targetRows.Some?
    ensures PlannedRows(s, hash, p).Some? && |PlannedRows(s, hash, p).value| == plan.preconditions.targetCount
    ensures StreamOutcome(hash, StreamFor(s, p.identity, Analyzed(hash, p).details.targetRows.value,
                                          PlannedRows(s, hash, p).value), plan.preconditions.targetCount)
         == Ok(plan.preconditions.targetSetSha256)
  {
    PlanRecords(s, hash, p, plan);
    var a := Analyzed(hash, p);
    AnalyzedIsDerived(hash, p.grammar, p.blank, p.raw);
    DerivedFromStatement(a.statement, a.details);
    UnacknowledgedIsPlain(Target(s, p, a).value.evidence, a.details.kind);
    hide AnalyzeSql, Selected, FirstUnsafe, Buffer, Sha256, FramedSize, TargetTexts, TableSchemaSha256, CanonicalTable;
    hide PlanChecks;
    SelectedSame(Target(s, p, a).value.rows, a.details.targetRows.value.selection, s.env(p.identity, p.db),
                 HomeEnv(s, p.identity));
  }

  /** The answers of one snapshot in which no call fails, and which keep the budgets. */
  ghost predicate AnswersTruly(s: Server, p: Planning, a: AnalyzedSql) {
    var w, rel, env := p.answers, Target(s, p, a), s.env(p.identity, p.db);
    && rel.Some? && NoCallFails(w) && w.identity == Ok(p.identity) && w.evidence == Ok(rel.value.evidence)
    && (match a.details.count
        case None => a.details.insertedRows <= p.options.limits.maxRows
        case Some(q) =>
          var n := CountRows(rel.value.rows, q, env);
          n.Some? && w.count == Ok(n.value) && n.value <= p.options.limits.maxRows)
    && (match a.details.targetRows
        case None => true
        case Some(q) =>
          var picked := Selected(rel.value.rows, q.selection, env);
          && picked.Some? && w.rows == StreamFor(s, p.identity, q, picked.value)
          && FramedSize(w.rows.texts) <= 67_108_864)
  }

  /**
   Planning gets through: for every accepted statement on an admitted table of a supported server, a plan is made
   when no call fails and the budgets are kept.  In particular its target query can be asked.
   */
  lemma PlanIsMade(s: Server, hash: Hasher, p: Planning)
    requires Countable(p.answers) && OptionsInRange(p.options) && Plannable(p.grammar, p.blank, p.raw)
    requires AnalyzeSql(hash, p.grammar, p.blank, p.raw).Ok?
    requires var a := Analyzed(hash, p);
      && AnswersTruly(s, p, a) && p.identity.serverVersionNum >= 130_000
      && Admissible(Target(s, p, a).value.evidence, a.details.kind, p.options.allowTriggers, p.options.allowRowSecurity)
    requires p.clock.At? && p.clock.now + p.options.lifetimeMs <= 0xFFFF_FFFF_FFFF_FFFF
    ensures PlanChecks(hash, p.grammar, p.blank, p.options, p.raw, p.answers, p.clock).Ok?
  {
    hide AnalyzeSql, PlanChecks, Plannable, OptionsInRange, Admissible, Selected, CountRows, TargetTexts, FramedSize, Target;
    hide AnalyzeStatement;
    var a := Analyzed(hash, p);
    PlanExactly(hash, p.grammar, p.blank, p.options, p.raw, p.answers, p.clock);
    AnalysisExactly(hash, p.grammar, p.blank, p.raw);
    AnalyzedIsDerived(hash, p.grammar, p.blank, p.raw);
    CountWithTarget(a.statement, a.details);
    if a.details.targetRows.Some? {
      DerivedFromStatement(a.statement, a.details);
      CountAgrees(Target(s, p, a).value.rows, a.details.count.value, s.env(p.identity, p.db));
    }
  }
}

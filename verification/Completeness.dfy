/** A plan that is applied in time to the table it was made for is committed. */
module Completeness {
  import opened Wrappers
  import opened Json
  import opened Integrity
  import opened Model
  import opened Receipt
  import opened ReceiptProofs
  import opened Journal
  import opened Fingerprint
  import opened Db
  import opened Sql
  import opened SqlMeaning
  import opened Evidence
  import opened Sorting
  import opened Engine
  import opened PlanCreation
  import opened Outcome
  import opened Apply
  import opened Protocol
  import opened ProtocolInvariant
  import opened ProtocolSteps
  import opened Planning

  /** What an apply meets when nothing fails: the identity, the table, its rows, and what the execution reports. */
  datatype Scene = Scene(server: Server, identity: DatabaseIdentity, rel: Relation, env: Env, affected: U64)

  /** The true answer to each call. */
  function Answer(c: Context, x: Scene, p: Phase): Reply {
    match p
    case Connecting => ConnectedBy(RequestedTransport(c.insecure))
    case Identifying => IdentityIs(x.identity)
    case Inspecting(_) => EvidenceIs(x.rel.evidence)
    case Counting(_, _) =>
      var q := c.analyzed.details.count;
      if q.Some? && CountRows(x.rel.rows, q.value, x.env).Some? then CountIs(CountRows(x.rel.rows, q.value, x.env).value)
      else Broken("target_count_failed", None)
    case Fingerprinting(_, _, _) =>
      var q := c.analyzed.details.targetRows;
      if q.Some? && Selected(x.rel.rows, q.value.selection, x.env).Some? then
        RowsAre(StreamFor(x.server, x.identity, q.value, Selected(x.rel.rows, q.value.selection, x.env).value))
      else Broken("target_evidence_query_failed", None)
    case Executing(_, _, _) => AffectedAre(x.affected)
    case _ => Fine
  }

  /** All answers from a phase on. */
  function Script(c: Context, x: Scene, p: Phase): seq<Reply>
    decreases Rank(p)
  {
    if p.Ending? then []
    else
      AdvanceRanks(c, p, Answer(c, x, p));
      [Answer(c, x, p)] + Script(c, x, Advance(c, p, Answer(c, x, p)))
  }

  function Destination(c: Context, x: Scene, p: Phase): Phase {
    End(c, p, Script(c, x, p))
  }

  lemma Onward(c: Context, x: Scene, p: Phase)
    requires !p.Ending?
    ensures Destination(c, x, p) == Destination(c, x, Advance(c, p, Answer(c, x, p)))
  {
    hide Advance, Answer;
    var next := Advance(c, p, Answer(c, x, p));
    EndStep(c, p, Script(c, x, p));
    assert Rest(Script(c, x, p)) == Script(c, x, next);
  }

  /** The scene is the planned one: same identity, same definition, the same rows in any order. */
  ghost predicate Unchanged(s: Server, hash: Hasher, p: Planning, x: Scene)
    requires AnalyzeSql(hash, p.grammar, p.blank, p.raw).Ok?
  {
    var rel := Target(s, p, Analyzed(hash, p));
    && x.server == s && x.identity == p.identity && (exists db :: x.env == s.env(p.identity, db))
    && rel.Some? && x.rel.evidence == rel.value.evidence && multiset(x.rel.rows) == multiset(rel.value.rows)
  }

  /** The statement goes through on the rows of the scene, with the reported number. */
  ghost predicate GoesThrough(st: Statement, x: Scene) {
    exists picked, images, after :: Performs(st, x.rel.rows, x.env, picked, images, Executed(after, x.affected))
  }

  lemma PermutedStream(s: Server, d: DatabaseIdentity, q: TargetQuery, a: seq<Row>, b: seq<Row>)
    requires TotalOrder(s.order) && multiset(a) == multiset(b)
    ensures StreamFor(s, d, q, a) == StreamFor(s, d, q, b) && |a| == |b|
  {
    EvidencePermutes(s.order, q.rowReference, a, b, s.rendering(d));
    assert |a| == |multiset(a)| == |multiset(b)| == |b|;
  }

  /** The rows selected in the scene are the planned rows in some order. */
  lemma SelectedAgain(s: Server, hash: Hasher, p: Planning, plan: Plan, x: Scene)
    requires Trusted(s) && TotalOrder(s.order) && MadeBy(s, hash, p, plan) && Unchanged(s, hash, p, x)
    requires !plan.allowTriggers && !plan.allowRowSecurity && Analyzed(hash, p).details.targetRows.Some?
    ensures var a := Analyzed(hash, p); var picked := Selected(x.rel.rows, a.details.targetRows.value.selection, x.env);
      && picked.Some? && |picked.value| == plan.preconditions.targetCount
      && StreamOutcome(hash, StreamFor(s, p.identity, a.details.targetRows.value, picked.value), plan.preconditions.targetCount)
         == Ok(plan.preconditions.targetSetSha256)
  {
    var a := Analyzed(hash, p);
    PlanFingerprint(s, hash, p, plan);
    AnalyzedIsDerived(hash, p.grammar, p.blank, p.raw);
    DerivedFromStatement(a.statement, a.details);
    hide AnalyzeSql, Selected, FirstUnsafe, StreamOutcome, StreamFor, MadeBy, AnalyzeStatement;
    var where := a.details.targetRows.value.selection;
    SelectedSame(x.rel.rows, where, x.env, HomeEnv(s, p.identity));
    SelectedPermutes(Target(s, p, a).value.rows, x.rel.rows, where, HomeEnv(s, p.identity));
    PermutedStream(s, p.identity, a.details.targetRows.value, PlannedRows(s, hash, p).value,
                   Selected(x.rel.rows, where, HomeEnv(s, p.identity)).value);
  }

  /** What goes through affects the planned number of rows. */
  lemma AffectedAsPlanned(s: Server, hash: Hasher, p: Planning, plan: Plan, x: Scene)
    requires Trusted(s) && TotalOrder(s.order) && MadeBy(s, hash, p, plan) && Unchanged(s, hash, p, x)
    requires !plan.allowTriggers && !plan.allowRowSecurity && GoesThrough(Analyzed(hash, p).statement, x)
    ensures x.affected == plan.preconditions.targetCount
  {
    var a := Analyzed(hash, p);
    AnalyzedIsDerived(hash, p.grammar, p.blank, p.raw);
    CountWithTarget(a.statement, a.details);
    PlanRecords(s, hash, p, plan);
    hide MadeBy, AnalyzeSql, Unchanged;
    var picked, images, after :| Performs(a.statement, x.rel.rows, x.env, picked, images, Executed(after, x.affected));
    if a.details.targetRows.Some? {
      SelectedAgain(s, hash, p, plan, x);
      DerivedFromStatement(a.statement, a.details);
      PerformedNumber(a.statement, a.details, x.rel.rows, x.env, picked, images, Executed(after, x.affected));
    } else {
      InsertFromStatement(a.statement, a.details);
    }
  }

  lemma PerformedNumber(st: Statement, d: Details, rows: seq<Row>, env: Env, picked: seq<Row>, images: seq<Row>,
                        result: Executed)
    requires AnalyzeStatement(st) == Ok(d) && d.targetRows.Some? && Performs(st, rows, env, picked, images, result)
    ensures Selected(rows, d.targetRows.value.selection, env) == Some(picked) && result.affected == |picked|
  {
    DerivedFromStatement(st, d);
    hide Selected, FirstUnsafe, AssignedAll, ExecuteUpdate, ExecuteDelete, Exchanged, AnalyzeStatement;
    if st.UpdateStatement? {
      UpdateAgrees(rows, st.assignments, st.selection.value, env);
    } else {
      DeleteAgrees(rows, st.selection.value, env);
    }
  }

  /** The first calls lead to the inspection of the table. */
  lemma Opened(c: Context, x: Scene)
    requires RequestedTransport(c.insecure) == c.plan.transportPolicy && x.identity == c.plan.preconditions.database
    ensures Destination(c, x, Start(c)) == Destination(c, x, Inspecting(x.identity))
  {
    hide Destination, OnEvidence, OnCount, OnRows, OnExecution, OnCommit, StreamFor, CountRows, Selected;
    Onward(c, x, Connecting);
    Onward(c, x, Beginning);
    Onward(c, x, SettingTimeouts);
    Onward(c, x, Locking);
    Onward(c, x, Identifying);
  }

  /** The last calls lead to the commit. */
  lemma Closed(c: Context, x: Scene, d: DatabaseIdentity, h: string, n: nat)
    requires x.affected == n
    ensures Destination(c, x, Executing(d, h, n)) == Ending(Committed, ReceiptResult(Some(n), "applied", None, Some(d), Some(h)))
  {
    var result := ReceiptResult(Some(n), "applied", None, Some(d), Some(h));
    Onward(c, x, Executing(d, h, n));
    Onward(c, x, Committing(result));
    hide Advance;
    assert Advance(c, Executing(d, h, n), Answer(c, x, Executing(d, h, n))) == Committing(result) by { ToCommit(c, d, h, n); }
    assert Advance(c, Committing(result), Fine) == Ending(Committed, result) by { ToEnd(c, result); }
  }

  lemma ToCommit(c: Context, d: DatabaseIdentity, h: string, n: U64)
    ensures Advance(c, Executing(d, h, n), AffectedAre(n))
         == Committing(ReceiptResult(Some(n), "applied", None, Some(d), Some(h)))
  {
  }

  lemma ToEnd(c: Context, r: ReceiptResult)
    ensures Advance(c, Committing(r), Fine) == Ending(Committed, r)
  {
  }

  lemma CountedOnward(c: Context, x: Scene, d: DatabaseIdentity, h: string, n: nat)
    requires n == c.plan.preconditions.targetCount <= c.plan.limits.maxRows
    requires c.analyzed.details.targetRows.Some? && x.identity == d
    requires var picked := Selected(x.rel.rows, c.analyzed.details.targetRows.value.selection, x.env);
      && picked.Some?
      && StreamOutcome(c.hash, StreamFor(x.server, d, c.analyzed.details.targetRows.value, picked.value), n)
         == Ok(c.plan.preconditions.targetSetSha256)
    ensures AfterCount(c, d, h, n) == Fingerprinting(d, h, n)
    ensures Destination(c, x, Fingerprinting(d, h, n)) == Destination(c, x, Executing(d, h, n))
  {
    hide Selected, StreamOutcome, StreamFor, Destination;
    Onward(c, x, Fingerprinting(d, h, n));
  }

  lemma InspectedOnward(c: Context, x: Scene)
    requires CanonicalTable(x.rel.evidence) == c.plan.preconditions.canonicalTable
    requires TableSchemaSha256(c.hash, x.rel.evidence) == c.plan.preconditions.tableSchemaSha256
    requires TablePolicyError(x.rel.evidence, c.analyzed.details.kind, c.plan.allowTriggers, c.plan.allowRowSecurity).None?
    ensures var h := c.plan.preconditions.tableSchemaSha256; var d := x.identity;
      Destination(c, x, Inspecting(d))
      == Destination(c, x, if c.analyzed.details.count.Some? then Counting(d, h)
                    else AfterCount(c, d, h, c.analyzed.details.insertedRows))
  {
    hide CanonicalTable, TableSchemaSha256, TablePolicyError, AfterCount, Destination;
    Onward(c, x, Inspecting(x.identity));
  }

  lemma CountOnward(c: Context, x: Scene, d: DatabaseIdentity, h: string)
    requires c.analyzed.details.count.Some? && CountRows(x.rel.rows, c.analyzed.details.count.value, x.env).Some?
    ensures Destination(c, x, Counting(d, h))
         == Destination(c, x, AfterCount(c, d, h, CountRows(x.rel.rows, c.analyzed.details.count.value, x.env).value))
  {
    hide CountRows, AfterCount, Destination;
    Onward(c, x, Counting(d, h));
  }

  lemma QueriedOnward(c: Context, x: Scene, d: DatabaseIdentity, h: string, n: nat)
    requires n == c.plan.preconditions.targetCount <= c.plan.limits.maxRows
    requires c.analyzed.details.targetRows.Some? && c.analyzed.details.count.Some? && x.identity == d
    requires c.analyzed.details.count.value.selection == c.analyzed.details.targetRows.value.selection
    requires var picked := Selected(x.rel.rows, c.analyzed.details.targetRows.value.selection, x.env);
      && picked.Some? && |picked.value| == n
      && StreamOutcome(c.hash, StreamFor(x.server, d, c.analyzed.details.targetRows.value, picked.value), n)
         == Ok(c.plan.preconditions.targetSetSha256)
    ensures Destination(c, x, Counting(d, h)) == Destination(c, x, Executing(d, h, n))
  {
    hide Selected, StreamOutcome, StreamFor, CountRows, Destination, AfterCount;
    CountAgrees(x.rel.rows, c.analyzed.details.count.value, x.env);
    CountOnward(c, x, d, h);
    CountedOnward(c, x, d, h, n);
  }

  /** The plan, written and read back unexpired, passes every check before the receipt. */
  lemma PassesChecks(s: Server, hash: Hasher, p: Planning, plan: Plan, insecure: bool, now: U64)
    requires MadeBy(s, hash, p, plan) && now <= plan.expiresAtUnixMs
    requires PlanTextsValid(plan) && |PlanFile(plan)| <= MAX_PLAN_BYTES
    ensures ApplyContext(hash, p.grammar, p.blank, PlanFile(plan), p.raw, insecure, At(now))
         == Ok(Context(hash, plan, Analyzed(hash, p), insecure))
  {
    MadePlanIsUsable(hash, p.grammar, p.blank, p.options, p.raw, p.answers, p.clock);
    hide AnalyzeSql, PlanChecks, VerifiedPlanSha256, ReadPlan, PlanFile, LimitsError, BindingError, Sees, PlanTextsValid;
    PlanFileRoundTrip(hash, plan);
  }

  /** The calls of an apply in an unchanged scene end in a commit of the planned number of rows. */
  lemma UnchangedCommits(s: Server, hash: Hasher, p: Planning, plan: Plan, insecure: bool, x: Scene)
    requires Trusted(s) && TotalOrder(s.order) && MadeBy(s, hash, p, plan) && Unchanged(s, hash, p, x)
    requires !plan.allowTriggers && !plan.allowRowSecurity && GoesThrough(Analyzed(hash, p).statement, x)
    requires RequestedTransport(insecure) == plan.transportPolicy
    ensures var c := Context(hash, plan, Analyzed(hash, p), insecure); var pre := plan.preconditions;
      Destination(c, x, Start(c))
      == Ending(Committed, ReceiptResult(Some(pre.targetCount), "applied", None, Some(pre.database),
                                         Some(pre.tableSchemaSha256)))
  {
    var c := Context(hash, plan, Analyzed(hash, p), insecure);
    PlanRecords(s, hash, p, plan);
    AffectedAsPlanned(s, hash, p, plan, x);
    AnalyzedIsDerived(hash, p.grammar, p.blank, p.raw);
    hide MadeBy, AnalyzeSql, AnalyzeStatement, Destination, CanonicalTable, TableSchemaSha256, TablePolicyError, Start;
    hide Analyzed, Target, GoesThrough, StreamOutcome, Selected, StreamFor, CountRows, TotalOrder, Trusted;
    CountWithTarget(c.analyzed.statement, c.analyzed.details);
    Opened(c, x);
    InspectedOnward(c, x);
    if c.analyzed.details.targetRows.Some? {
      SelectedAgain(s, hash, p, plan, x);
      DerivedFromStatement(c.analyzed.statement, c.analyzed.details);
    }
    hide Unchanged;
    ToExecution(c, x);
    Closed(c, x, x.identity, plan.preconditions.tableSchemaSha256, plan.preconditions.targetCount);
  }

  /** From the accepted definition to the execution. */
  lemma ToExecution(c: Context, x: Scene)
    requires c.analyzed.details.count.Some? <==> c.analyzed.details.targetRows.Some?
    requires c.plan.preconditions.targetCount <= c.plan.limits.maxRows
    requires c.analyzed.details.targetRows.Some? ==>
               && c.analyzed.details.count.value.selection == c.analyzed.details.targetRows.value.selection
               && var picked := Selected(x.rel.rows, c.analyzed.details.targetRows.value.selection, x.env);
                  && picked.Some? && |picked.value| == c.plan.preconditions.targetCount
                  && StreamOutcome(c.hash, StreamFor(x.server, x.identity, c.analyzed.details.targetRows.value, picked.value),
                                   c.plan.preconditions.targetCount) == Ok(c.plan.preconditions.targetSetSha256)
    requires c.analyzed.details.targetRows.None? ==>
               && c.analyzed.details.insertedRows == c.plan.preconditions.targetCount
               && Sha256(c.hash, c.analyzed.normalized) == c.plan.preconditions.targetSetSha256
    ensures var d, h, n := x.identity, c.plan.preconditions.tableSchemaSha256, c.plan.preconditions.targetCount;
      Destination(c, x, if c.analyzed.details.count.Some? then Counting(d, h)
                    else AfterCount(c, d, h, c.analyzed.details.insertedRows))
      == Destination(c, x, Executing(d, h, n))
  {
    hide Destination, Selected, StreamOutcome, StreamFor;
    var d, h, n := x.identity, c.plan.preconditions.tableSchemaSha256, c.plan.preconditions.targetCount;
    if c.analyzed.details.targetRows.Some? {
      QueriedOnward(c, x, d, h, n);
    }
  }

  lemma CommittedAnswer(hash: Hasher, prepared: ReceiptEvent, result: ReceiptResult, endAt: U64)
    ensures FinalOutcome(hash, prepared, Ending(Committed, result), At(endAt), Durable)
         == Ok(ApplyResult(prepared.receiptId, Committed, prepared.planSha256, result.affectedRows, result.reasonCode))
  {
    hide EventSha256;
  }

  lemma IsMade(s: Server, hash: Hasher, p: Planning, plan: Plan)
    requires MadeBy(s, hash, p, plan)
    ensures AnalyzeSql(hash, p.grammar, p.blank, p.raw).Ok? && VerifiedPlanSha256(hash, plan).Ok?
  {
    hide AnalyzeSql, PlanChecks, VerifiedPlanSha256, LimitsError, BindingError, Sees, CatalogOk;
    MadePlanIsUsable(hash, p.grammar, p.blank, p.options, p.raw, p.answers, p.clock);
  }

  lemma StartsDurably(c: Context, receiptAt: U64)
    requires VerifiedPlanSha256(c.hash, c.plan).Ok?
    ensures Started(Ok(c), At(receiptAt), true, Durable)
         == Ok((c, PreparedFor(c.hash, VerifiedPlanSha256(c.hash, c.plan).value, c.analyzed.sqlFileSha256, receiptAt)))
  {
    hide VerifiedPlanSha256, PreparedFor;
  }

  /** On the true answers the run ends committed with the planned number of rows, and says so. */
  ghost predicate Commits(c: Context, x: Scene, prepared: ReceiptEvent, endAt: U64) {
    FinalOutcome(c.hash, prepared, End(c, Start(c), Script(c, x, Start(c))), At(endAt), Durable)
    == Ok(ApplyResult(prepared.receiptId, Committed, prepared.planSha256, Some(c.plan.preconditions.targetCount), "applied"))
  }

  lemma CommitsThere(c: Context, x: Scene, prepared: ReceiptEvent, endAt: U64)
    requires var pre := c.plan.preconditions;
      Destination(c, x, Start(c))
      == Ending(Committed, ReceiptResult(Some(pre.targetCount), "applied", None, Some(pre.database),
                                         Some(pre.tableSchemaSha256)))
    ensures Commits(c, x, prepared, endAt)
  {
    hide FinalOutcome, End, Script, Start;
    var pre := c.plan.preconditions;
    CommittedAnswer(c.hash, prepared, ReceiptResult(Some(pre.targetCount), "applied", None, Some(pre.database),
                                                    Some(pre.tableSchemaSha256)), endAt);
  }

  /**
   Completeness.  A plan without acknowledgements, written to a file of at most 1 MiB and applied with the same
   SQL before it expires, over the planned transport, to a table with the planned definition and the
   planned rows in any order, is committed with the planned number of rows and says so, provided that no
   call, clock or disk fails and the statement itself goes through.
   */
  lemma Complete(s: Server, hash: Hasher, p: Planning, plan: Plan, insecure: bool, now: U64, x: Scene, receiptAt: U64,
                 endAt: U64)
    requires Trusted(s) && TotalOrder(s.order) && MadeBy(s, hash, p, plan) && Unchanged(s, hash, p, x)
    requires !plan.allowTriggers && !plan.allowRowSecurity && GoesThrough(Analyzed(hash, p).statement, x)
    requires RequestedTransport(insecure) == plan.transportPolicy
    requires now <= plan.expiresAtUnixMs && PlanTextsValid(plan) && |PlanFile(plan)| <= MAX_PLAN_BYTES
    ensures var start := Started(ApplyContext(hash, p.grammar, p.blank, PlanFile(plan), p.raw, insecure, At(now)),
                                 At(receiptAt), true, Durable);
      start.Ok? && Commits(start.value.0, x, start.value.1, endAt) && start.value.0.plan == plan
  {
    hide *;
    assert AnalyzeSql(hash, p.grammar, p.blank, p.raw).Ok? by { IsMade(s, hash, p, plan); }
    PassesChecks(s, hash, p, plan, insecure, now);
    UnchangedCommits(s, hash, p, plan, insecure, x);
    var c := Context(hash, plan, Analyzed(hash, p), insecure);
    IsMade(s, hash, p, plan);
    StartsDurably(c, receiptAt);
    CommitsThere(c, x, PreparedFor(hash, VerifiedPlanSha256(hash, plan).value, c.analyzed.sqlFileSha256, receiptAt), endAt);
  }
}

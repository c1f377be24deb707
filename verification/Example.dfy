/** One small plan, for any digest function and any server, as an instance of the hypotheses. */
module Example {
  import opened Wrappers
  import opened Json
  import opened Integrity
  import opened Model
  import opened Receipt
  import opened Journal
  import opened Fingerprint
  import opened Db
  import opened Sql
  import opened SqlMeaning
  import opened Evidence
  import opened Sorting
  import opened Engine
  import opened PlanCreation
  import opened Outcome
  import opened Apply
  import opened Protocol
  import opened ProtocolInvariant
  import opened Planning
  import opened Completeness
  import opened Reachability
  import opened Capture
  import ApplyTheorems
  import Replay

  const COLUMN := Ident("id", true)

  const TABLE := TableRef([Ident("t", true)], None, false, false)

  /** `"id" = 1` */
  const WHERE := Binary(BinaryOp.Eq, Identifier(COLUMN), Literal(VInt(1)))

  const STATEMENT := DeleteStatement([TABLE], true, Some(WHERE), false)

  const DETAILS := Details(StatementKind.Delete, [Ident("t", true)], Some(CountQuery(TABLE, WHERE)),
                           Some(TargetQuery(Ident("t", true), TABLE, WHERE)), 0)

  const ROW: Row := map["id" := VInt(1)]

  const ID := TableId("public", "t")

  const EVIDENCE := TableEvidence("public", "t", 1, "r", "p", false, false,
                                  [ColumnEvidence(1, "id", "integer", true, false, None, "", "")],
                                  [], [], [], [], [], [], [])

  function Identity(searchPath: string): DatabaseIdentity {
    DatabaseIdentity("d", "r", searchPath, 150_000, "e", None, None, [])
  }

  const DATABASE := Database(map[1 := Relation(EVIDENCE, [ROW])], map[ID := 1])

  function TheGrammar(): Grammar {
    Grammar(_ => Some([STATEMENT]), _ => "s", _ => "t", _ => "t", _ => "t", _ => "e")
  }

  function NeverBlank(s: string): bool {
    false
  }

  const OPTIONS := PlanOptions(Limits(10, 1_000, 100), 60_000, false, false)

  lemma NothingUnsafe()
    ensures FirstUnsafeOf([WHERE]).None?
  {
    assert FirstUnsafe(Identifier(COLUMN)).None?;
    assert FirstUnsafe(Literal(VInt(1))).None?;
    assert FirstUnsafe(WHERE).None?;
    assert [WHERE][1..] == [];
  }

  lemma TheStatement()
    ensures AnalyzeStatement(STATEMENT) == Ok(DETAILS)
  {
    NothingUnsafe();
    assert StatementExpressions(STATEMENT) == [WHERE];
    hide FirstUnsafeOf;
    assert AnalyzeDelete(STATEMENT) == Ok(DETAILS);
  }

  lemma Analysis(hash: Hasher)
    ensures AnalyzeSql(hash, TheGrammar(), NeverBlank, "x").Ok?
    ensures var a := AnalyzeSql(hash, TheGrammar(), NeverBlank, "x").value;
      a.statement == STATEMENT && a.details == DETAILS && a.requestedTable == "t"
  {
    TheStatement();
    hide Sha256, CountText, TargetText, AnalyzeStatement;
  }

  lemma TheTestIsTrue(env: Env)
    ensures Test(WHERE, ROW, env) == Yes
  {
    assert Eval(Identifier(COLUMN), ROW, env) == Val(VInt(1));
    assert Eval(Literal(VInt(1)), ROW, env) == Val(VInt(1));
    assert Eval(WHERE, ROW, env) == ApplyOp(BinaryOp.Eq, Val(VInt(1)), Val(VInt(1)), env);
  }

  lemma TheRowIsSelected(env: Env)
    ensures Selected([ROW], WHERE, env) == Some([ROW])
    ensures CountRows([ROW], DETAILS.count.value, env) == Some(1)
    ensures Performs(STATEMENT, [ROW], env, [ROW], [], Executed([], 1))
  {
    TheTestIsTrue(env);
    hide Test;
    assert [ROW][1..] == [];
    assert Selected([], WHERE, env) == Some([]);
    assert [ROW] + [] == [ROW];
    assert CountRows([], DETAILS.count.value, env) == Some(0);
    assert ExecuteDelete([], WHERE, env) == Some(Executed([], 0));
    assert ExecuteDelete([ROW], WHERE, env) == Some(Executed([], 1));
  }

  function TheAnswers(s: Server, d: DatabaseIdentity): PlanAnswers {
    PlanAnswers(Ok(TlsRequired), Ok(()), Ok(()), Ok(d), Ok(EVIDENCE), Ok(1),
                StreamFor(s, d, DETAILS.targetRows.value, [ROW]), Ok(Null), Ok(()))
  }

  function ThePlanning(s: Server, d: DatabaseIdentity): Planning {
    Planning(TheGrammar(), NeverBlank, OPTIONS, "x", TheAnswers(s, d), At(0), d, DATABASE)
  }

  /** A session of a supported server that renders the row in at most a thousand bytes. */
  predicate Fits(s: Server, d: DatabaseIdentity) {
    d.serverVersionNum == 150_000 && |s.rendering(d).row(ROW)| <= 1_000
  }

  /** The table is found in the search path. */
  predicate Finds(s: Server, d: DatabaseIdentity) {
    FirstInPath(s.path(d), DATABASE, "t") == Some(1)
  }

  lemma TheEvidenceFits(hash: Hasher, s: Server, d: DatabaseIdentity)
    requires Fits(s, d)
    ensures StreamOutcome(hash, StreamFor(s, d, DETAILS.targetRows.value, [ROW]), 1).Ok?
  {
    var t := s.rendering(d).row(ROW);
    assert RowTexts(Ident("t", true), [ROW], s.rendering(d)) == [t];
    assert Sort(s.order, [t]) == [t];
    assert FramedSize([t]) == 8 + |t| + FramedSize([t][1..]);
    hide Sha256, Buffer;
  }

  lemma ThePlanIsMade(hash: Hasher, s: Server, d: DatabaseIdentity)
    requires Fits(s, d)
    ensures PlanChecks(hash, TheGrammar(), NeverBlank, OPTIONS, "x", TheAnswers(s, d), At(0)).Ok?
  {
    Analysis(hash);
    TheEvidenceFits(hash, s, d);
    assert TablePolicyError(EVIDENCE, StatementKind.Delete, false, false).None?;
    hide AnalyzeSql, Sha256, PlanContent, Sha256Json, TableSchemaSha256, CanonicalTable, StreamFor, StreamOutcome, Decimal;
    hide TablePolicyError;
  }

  function ThePlan(hash: Hasher, s: Server, d: DatabaseIdentity): Plan
    requires Fits(s, d)
  {
    ThePlanIsMade(hash, s, d);
    PlanChecks(hash, TheGrammar(), NeverBlank, OPTIONS, "x", TheAnswers(s, d), At(0)).value
  }

  lemma TheTargetIsSeen(hash: Hasher, s: Server, d: DatabaseIdentity)
    requires Finds(s, d)
    ensures AnalyzeSql(hash, TheGrammar(), NeverBlank, "x").Ok?
    ensures var p := ThePlanning(s, d); var a := Analyzed(hash, p);
      Target(s, p, a) == Some(Relation(EVIDENCE, [ROW])) && Sees(s, p, a) && Countable(p.answers)
      && a.statement == STATEMENT && a.details == DETAILS
  {
    hide AnalyzeSql, Selected, CountRows, StreamFor, Performs, FirstInPath, Plain, TheGrammar;
    Analysis(hash);
    TheRowIsSelected(s.env(d, DATABASE));
    assert DATABASE.tables[1] == Relation(EVIDENCE, [ROW]);
  }

  lemma ThePlanIsMadeBy(hash: Hasher, s: Server, d: DatabaseIdentity)
    requires Fits(s, d) && Finds(s, d)
    ensures MadeBy(s, hash, ThePlanning(s, d), ThePlan(hash, s, d))
  {
    hide AnalyzeSql, PlanChecks, Sees, Analyzed, CatalogOk, Fits, Finds, Countable, Target, StreamFor, TheAnswers, TheGrammar;
    TheTargetIsSeen(hash, s, d);
    ThePlanIsMade(hash, s, d);
    TheCatalog();
    TheFile(hash, ThePlanning(s, d));
  }

  lemma TheCatalog()
    ensures CatalogOk(DATABASE)
  {
  }

  /** The run of the plan in the scene of the plan. */
  lemma TheScene(hash: Hasher, s: Server, d: DatabaseIdentity) returns (c: Context, x: Scene)
    requires Trusted(s) && TotalOrder(s.order) && Fits(s, d) && Finds(s, d)
    ensures MadeBy(s, hash, ThePlanning(s, d), c.plan) && Alone(s, c, ThePlanning(s, d), x) && c.hash == hash
    ensures AnalyzeSql(hash, TheGrammar(), NeverBlank, "x") == Ok(c.analyzed) && c.analyzed.details == DETAILS
    ensures x.rel == Relation(EVIDENCE, [ROW]) && c.plan.preconditions.database == d
    ensures TableNamed(c.plan.preconditions.canonicalTable) == Some(ID)
  {
    hide Trusted, TotalOrder, MadeBy, Sees, Performs, AnalyzeSql, ThePlan, Analyzed, Target, TheGrammar, TheAnswers;
    hide CanonicalTable, TableNamed, CanonicalName, PlanChecks, Fits, Finds;
    TheTargetIsSeen(hash, s, d);
    ThePlanIsMadeBy(hash, s, d);
    var p, plan, env := ThePlanning(s, d), ThePlan(hash, s, d), s.env(d, DATABASE);
    PlanKeeps(s, hash, p, plan);
    TheRowIsSelected(env);
    c := Context(hash, plan, Analyzed(hash, p), false);
    x := Scene(s, d, Relation(EVIDENCE, [ROW]), env, 1);
    TheConnection(s, d);
    TheFile(hash, p);
    PlannedName(s, hash, p, plan);
    assert GoesThrough(c.analyzed.statement, x);
  }

  lemma TheFile(hash: Hasher, p: Planning)
    requires AnalyzeSql(hash, p.grammar, p.blank, p.raw).Ok?
    ensures AnalyzeSql(hash, p.grammar, p.blank, p.raw) == Ok(Analyzed(hash, p))
  {
    hide AnalyzeSql;
  }

  lemma TheConnection(s: Server, d: DatabaseIdentity)
    ensures TheAnswers(s, d).connected == Ok(TlsRequired)
  {
  }

  lemma PlannedName(s: Server, hash: Hasher, p: Planning, plan: Plan)
    requires MadeBy(s, hash, p, plan)
    ensures Target(s, p, Analyzed(hash, p)).Some?
    ensures TableNamed(plan.preconditions.canonicalTable) == Some(IdOf(Target(s, p, Analyzed(hash, p)).value.evidence))
    ensures plan.preconditions.database == p.identity
  {
    hide AnalyzeSql, PlanChecks, TableNamed, CanonicalName, Target;
    PlanRecords(s, hash, p, plan);
    CanonicalRoundTrip(IdOf(Target(s, p, Analyzed(hash, p)).value.evidence));
  }

  lemma PlanKeeps(s: Server, hash: Hasher, p: Planning, plan: Plan)
    requires MadeBy(s, hash, p, plan)
    ensures plan.allowTriggers == p.options.allowTriggers && plan.allowRowSecurity == p.options.allowRowSecurity
    ensures Ok(plan.transportPolicy) == p.answers.connected
  {
    hide AnalyzeSql, TablePolicyError, TableSchemaSha256, CanonicalTable, Sha256, Sha256Json, TargetSet, Sees;
    hide Decimal, LimitsError, PlanContent, TargetCount, Plain;
  }

  // ---------------------------------------------------------------- the hypotheses of the theorems

  /** The table is the first of the path to be found. */
  lemma FoundFirst(s: Server, d: DatabaseIdentity)
    requires s.path(d) != [] && s.path(d)[0] == "public"
    ensures Finds(s, d)
  {
    assert TableId("public", "t") == ID;
  }

  lemma TheRowsConform()
    ensures ApplyTheorems.Conforms(EVIDENCE, [ROW]) && ApplyTheorems.Columns(EVIDENCE) == {"id"}
  {
    assert EVIDENCE.columns[0].name == "id";
    assert ROW.Keys == {"id"};
  }

  /** The plan's table name cannot be captured when its schema comes first. */
  lemma TheGuard(s: Server, c: Context, d: DatabaseIdentity)
    requires s.path(d) != [] && c.plan.preconditions.database == d && Unacknowledged(c) && c.analyzed.details == DETAILS
    requires TableNamed(c.plan.preconditions.canonicalTable) == Some(ID)
    ensures Exact(s, c) <==> s.path(d)[0] == "public"
    ensures Uncapturable(s, c) <==> s.path(d)[0] == "public"
  {
    hide TableNamed;
  }

  lemma TheRowIsFaithful(s: Server, c: Context)
    requires c.analyzed.details == DETAILS && InjectiveRows(s.rendering(c.plan.preconditions.database))
    ensures ApplyTheorems.FaithfulFor(s, c, EVIDENCE)
  {
    TheRowsConform();
    hide InjectiveRows, ApplyTheorems.Columns;
  }

  /** The last commit is the only one since itself. */
  lemma TheCommit(s: Server, c: Context, w: World, o: Oid) returns (m: nat)
    requires PublishedIn(c, w, o, Relation(EVIDENCE, [ROW])) && c.analyzed.details == DETAILS
    requires ApplyTheorems.FaithfulFor(s, c, EVIDENCE)
    ensures Replay.OnlyThisPlan(s, w, m, c)
    ensures 0 in w.runs && w.runs[0].c == c && w.runs[0].effect.Some?
    ensures ApplyTheorems.Conforms(w.runs[0].effect.value.evidence, w.runs[0].effect.value.before)
  {
    TheRowsConform();
    hide ApplyTheorems.FaithfulFor, ApplyTheorems.Conforms;
    m := |w.log| - 1;
  }

  /**
   For any digest function and any server that renders rows faithfully and finds the table's schema first,
   there are a plan, a run and a history in which the run publishes its change, and everything that the
   protocol theorem and the replay theorem ask of a plan, a run and a commit holds.
   */
  lemma HypothesesCanBeMet(hash: Hasher, s: Server) returns (c: Context, p: Planning, ws: seq<World>, m: nat)
    requires Trusted(s) && TotalOrder(s.order) && Fits(s, Identity("public"))
    requires s.path(Identity("public")) == ["public"] && InjectiveRows(s.rendering(Identity("public")))
    ensures MadeBy(s, hash, p, c.plan) && AnalyzeSql(hash, p.grammar, p.blank, p.raw) == Ok(c.analyzed)
    ensures c.hash == hash && Exact(s, c) && Target(s, p, c.analyzed).Some?
    ensures var rel := Target(s, p, c.analyzed).value;
      ApplyTheorems.FaithfulFor(s, c, rel.evidence) && ApplyTheorems.Conforms(rel.evidence, rel.rows)
    ensures History(s, ws) && ws != [] && 0 in ws[|ws| - 1].runs
    ensures var run := ws[|ws| - 1].runs[0];
      run.c == c && run.effect.Some? && ApplyTheorems.Conforms(run.effect.value.evidence, run.effect.value.before)
    ensures Replay.OnlyThisPlan(s, ws[|ws| - 1], m, c)
  {
    hide *;
    var d := Identity("public");
    FoundFirst(s, d);
    p := ThePlanning(s, d);
    var x;
    c, x := TheScene(hash, s, d);
    ThePlanningIs(s, d);
    AloneIsMade(s, c, p, x);
    TheGuard(s, c, d);
    TheRowsConform();
    TheTargetIsSeen(hash, s, d);
    TheRowIsFaithful(s, c);
    TheFile(hash, p);
    var o;
    ws, o := CommitIsReachable(s, c, p, x, 0);
    NotEmpty(s, ws);
    m := TheCommit(s, c, ws[|ws| - 1], o);
  }

  lemma ThePlanningIs(s: Server, d: DatabaseIdentity)
    ensures var p := ThePlanning(s, d);
      p.grammar == TheGrammar() && p.blank == NeverBlank && p.raw == "x" && p.identity == d && p.db == DATABASE
  {
  }

  /**
   The same plan, made in a session whose search path begins with another schema, can change another table:
   a table of its name that is created there between the fingerprint and the execution.
   */
  lemma TheNameIsCaptured(hash: Hasher, s: Server) returns (c: Context, ws: seq<World>, e: TableEvidence)
    requires Trusted(s) && TotalOrder(s.order) && Fits(s, Identity("app, public"))
    requires s.path(Identity("app, public")) == ["app", "public"]
    ensures MadeBy(s, hash, ThePlanning(s, Identity("app, public")), c.plan)
    ensures History(s, ws) && ws != [] && PublishedIn(c, ws[|ws| - 1], 2, Relation(e, [ROW]))
    ensures !PlannedTable(c, e) && 2 !in DATABASE.tables
  {
    hide *;
    var d := Identity("app, public");
    FoundSecond(s, d);
    var x;
    c, x := TheScene(hash, s, d);
    ThePlanningIs(s, d);
    AloneIsMade(s, c, ThePlanning(s, d), x);
    TheGuard(s, c, d);
    OnlyOneTable();
    ws, e := CaptureIsReachable(s, c, ThePlanning(s, d), x, 2, 0);
    NotEmpty(s, ws);
  }

  lemma FoundSecond(s: Server, d: DatabaseIdentity)
    requires s.path(d) == ["app", "public"]
    ensures Finds(s, d)
  {
    assert TableId("app", "t") !in DATABASE.catalog;
    assert ["app", "public"][1..] == ["public"];
    assert FirstInPath(["public"], DATABASE, "t") == Some(1);
  }

  lemma OnlyOneTable()
    ensures 2 !in DATABASE.tables
  {
  }
}

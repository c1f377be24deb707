/** What every step of the protocol keeps. */
module ProtocolInvariant {
  import opened Wrappers
  import opened Integrity
  import opened Model
  import opened Receipt
  import opened Journal
  import opened Fingerprint
  import opened Db
  import opened Sql
  import opened SqlMeaning
  import opened Evidence
  import opened Engine
  import opened PlanCreation
  import opened Outcome
  import opened Apply
  import opened Protocol

  // ---------------------------------------------------------------- accepted statements

  /** A plan that acknowledges neither triggers nor row security. */
  predicate Unacknowledged(c: Context) {
    !c.plan.allowTriggers && !c.plan.allowRowSecurity
  }

  /**
   No other table can take over the statement's name: it names its schema, or its schema comes first in the
   search path.  The plan and the SQL file tell.
   */
  predicate Uncapturable(s: Server, c: Context) {
    var path, id := s.path(c.plan.preconditions.database), TableNamed(c.plan.preconditions.canonicalTable);
    |c.analyzed.details.table| == 2 || (path != [] && id.Some? && id.value.schema == path[0])
  }

  /** An unacknowledged plan whose table name cannot be captured. */
  predicate Guarded(s: Server, c: Context) {
    Unacknowledged(c) && Uncapturable(s, c)
  }

  /** An UPDATE or DELETE of such a plan. */
  predicate Exact(s: Server, c: Context) {
    c.analyzed.details.targetRows.Some? && Guarded(s, c)
  }

  /** An INSERT of such a plan. */
  predicate Adding(s: Server, c: Context) {
    c.analyzed.details.targetRows.None? && Guarded(s, c)
  }

  function Where(c: Context): Expr
    requires c.analyzed.details.targetRows.Some?
  {
    c.analyzed.details.targetRows.value.selection
  }

  function Assignments(st: Statement): seq<Assignment> {
    if st.UpdateStatement? then st.assignments else []
  }

  predicate SafeAssignments(assignments: seq<Assignment>) {
    forall i | 0 <= i < |assignments| :: FirstUnsafe(assignments[i].value).None?
  }

  lemma {:induction false} SafeParts(es: seq<Expr>, i: nat)
    requires FirstUnsafeOf(es).None? && i < |es|
    ensures FirstUnsafe(es[i]).None?
  {
    if i > 0 {
      SafeParts(es[1..], i - 1);
    }
  }

  /** The table of an UPDATE or DELETE, as it is written. */
  function OwnTable(st: Statement): Option<TableRef> {
    match st
    case UpdateStatement(table, _, _, _) => Some(table)
    case DeleteStatement(tables, _, _, _) => if |tables| == 1 then Some(tables[0]) else None
    case _ => None
  }

  /**
   The statement behind a target query: an UPDATE or DELETE whose own table and WHERE clause are those of both
   derived queries, with nothing unsafe in the clause or in an assignment.  The table that is looked up, locked
   and inspected is the one that the queries read, and the name by which the rows go is one that it exposes.
   */
  lemma DerivedFromStatement(st: Statement, d: Details)
    requires AnalyzeStatement(st) == Ok(d) && d.targetRows.Some?
    ensures st.UpdateStatement? || st.DeleteStatement?
    ensures (if st.UpdateStatement? then st.selection else if st.DeleteStatement? then st.selection else None)
         == Some(d.targetRows.value.selection)
    ensures d.count.Some? && d.count.value.selection == d.targetRows.value.selection
    ensures OwnTable(st) == Some(d.targetRows.value.from) && d.count.value.from == d.targetRows.value.from
    ensures d.table == d.targetRows.value.from.name && InScope(d.targetRows.value)
    ensures FirstUnsafe(d.targetRows.value.selection).None?
    ensures SafeAssignments(Assignments(st))
  {
    var es := StatementExpressions(st);
    hide FirstUnsafe;
    if st.UpdateStatement? {
      SafeParts(es, |es| - 1);
      forall i | 0 <= i < |st.assignments| ensures FirstUnsafe(st.assignments[i].value).None? {
        SafeParts(es, i);
        assert es[i] == st.assignments[i].value;
      }
    } else if st.DeleteStatement? {
      SafeParts(es, 0);
    }
  }

  /** A statement without derived queries is an INSERT of the listed rows. */
  lemma InsertFromStatement(st: Statement, d: Details)
    requires AnalyzeStatement(st) == Ok(d) && d.targetRows.None?
    ensures st.InsertStatement? && st.source.ValuesSource? && |st.source.rows| == d.insertedRows
  {
    hide FirstUnsafeOf;
  }

  /** Count query and target query come and go together. */
  lemma CountWithTarget(st: Statement, d: Details)
    requires AnalyzeStatement(st) == Ok(d)
    ensures d.count.Some? <==> d.targetRows.Some?
  {
    hide FirstUnsafeOf;
  }

  lemma {:induction false} SelectedSame(rows: seq<Row>, selection: Expr, a: Env, b: Env)
    requires FirstUnsafe(selection).None? && SameServer(a, b)
    ensures Selected(rows, selection, a) == Selected(rows, selection, b)
  {
    hide Eval, FirstUnsafe;
    if rows != [] {
      SelectedSame(rows[1..], selection, a, b);
      EnvironmentIndependence(selection, rows[0], a, b);
    }
  }

  lemma {:induction false} AssignedSame(row: Row, assignments: seq<Assignment>, a: Env, b: Env)
    requires SafeAssignments(assignments) && SameServer(a, b)
    ensures Assigned(row, assignments, a) == Assigned(row, assignments, b)
    decreases |assignments|
  {
    hide Eval, FirstUnsafe;
    if assignments != [] {
      AssignedSame(row, assignments[..|assignments| - 1], a, b);
      EnvironmentIndependence(assignments[|assignments| - 1].value, row, a, b);
    }
  }

  lemma {:induction false} AssignedAllSame(rows: seq<Row>, assignments: seq<Assignment>, a: Env, b: Env)
    requires SafeAssignments(assignments) && SameServer(a, b)
    ensures AssignedAll(rows, assignments, a) == AssignedAll(rows, assignments, b)
  {
    hide Assigned;
    if rows != [] {
      AssignedAllSame(rows[1..], assignments, a, b);
      AssignedSame(rows[0], assignments, a, b);
    }
  }

  lemma {:induction false} UpdateSame(rows: seq<Row>, assignments: seq<Assignment>, selection: Expr, a: Env, b: Env)
    requires FirstUnsafe(selection).None? && SafeAssignments(assignments) && SameServer(a, b)
    ensures ExecuteUpdate(rows, assignments, selection, a) == ExecuteUpdate(rows, assignments, selection, b)
  {
    hide Eval, FirstUnsafe, Assigned, SafeAssignments;
    if rows != [] {
      UpdateSame(rows[1..], assignments, selection, a, b);
      EnvironmentIndependence(selection, rows[0], a, b);
      AssignedSame(rows[0], assignments, a, b);
    }
  }

  lemma {:induction false} DeleteSame(rows: seq<Row>, selection: Expr, a: Env, b: Env)
    requires FirstUnsafe(selection).None? && SameServer(a, b)
    ensures ExecuteDelete(rows, selection, a) == ExecuteDelete(rows, selection, b)
  {
    hide Eval, FirstUnsafe;
    if rows != [] {
      DeleteSame(rows[1..], selection, a, b);
      EnvironmentIndependence(selection, rows[0], a, b);
    }
  }

  /** An accepted statement does the same in any environment. */
  lemma PerformsSame(st: Statement, d: Details, rows: seq<Row>, a: Env, b: Env, picked: seq<Row>, images: seq<Row>,
                     result: Executed)
    requires AnalyzeStatement(st) == Ok(d) && SameServer(a, b) && Performs(st, rows, a, picked, images, result)
    ensures Performs(st, rows, b, picked, images, result)
  {
    if d.targetRows.Some? {
      DerivedFromStatement(st, d);
      hide FirstUnsafe, Selected, AssignedAll, ExecuteUpdate, ExecuteDelete, AnalyzeStatement, SafeAssignments;
      SelectedSame(rows, d.targetRows.value.selection, a, b);
      if st.UpdateStatement? {
        AssignedAllSame(picked, st.assignments, a, b);
        UpdateSame(rows, st.assignments, d.targetRows.value.selection, a, b);
      } else {
        DeleteSame(rows, d.targetRows.value.selection, a, b);
      }
    } else {
      InsertFromStatement(st, d);
    }
  }

  // ---------------------------------------------------------------- what a finished change is

  /** The images of the picked rows under the statement. */
  ghost predicate ImagesOf(st: Statement, picked: seq<Row>, images: seq<Row>, env: Env) {
    if st.UpdateStatement? then AssignedAll(picked, st.assignments, env) == Some(images) else images == []
  }

  /** The evidence of the picked rows is the planned one. */
  ghost predicate AsPlanned(s: Server, c: Context, picked: seq<Row>)
    requires c.analyzed.details.targetRows.Some?
  {
    var d := c.plan.preconditions.database;
    StreamOutcome(c.hash, StreamFor(s, d, c.analyzed.details.targetRows.value, picked), c.plan.preconditions.targetCount)
    == Ok(c.plan.preconditions.targetSetSha256)
  }

  /** Accepted evidence consists of row texts, under a name that is in scope. */
  lemma PlannedInScope(s: Server, c: Context, picked: seq<Row>)
    requires c.analyzed.details.targetRows.Some? && AsPlanned(s, c, picked)
    ensures InScope(c.analyzed.details.targetRows.value)
  {
    hide Buffer, FramedSize, TargetTexts, InScope;
  }

  /** The table is the planned one, by name and by definition. */
  predicate PlannedTable(c: Context, evidence: TableEvidence) {
    && Some(IdOf(evidence)) == TableNamed(c.plan.preconditions.canonicalTable)
    && TableSchemaSha256(c.hash, evidence) == c.plan.preconditions.tableSchemaSha256
  }

  /** What the statement of a guarded run makes of some rows: it exchanges what it takes out for what it puts in. */
  ghost predicate Changes(s: Server, c: Context, rows: seq<Row>, picked: seq<Row>, images: seq<Row>, after: seq<Row>) {
    var env := HomeEnv(s, c.plan.preconditions.database);
    && Exchanged(rows, picked, images, after)
    && (Exact(s, c) ==>
          && Selected(rows, Where(c), env) == Some(picked)
          && ImagesOf(c.analyzed.statement, picked, images, env)
          && AsPlanned(s, c, picked)
          && |picked| == c.plan.preconditions.targetCount)
    && (Adding(s, c) ==> picked == [] && |images| == c.plan.preconditions.targetCount)
  }

  /** The published change: the planned rows of the planned table, exchanged for their images, and nothing else. */
  ghost predicate EffectOk(s: Server, c: Context, e: Effect) {
    && (Uncapturable(s, c) ==> PlannedTable(c, e.evidence) && e.evidence.oid == e.table)
    && (Guarded(s, c) ==> Changes(s, c, e.before, e.picked, e.images, e.after))
  }

  // ---------------------------------------------------------------- the invariant of a run

  /** The lock is held on the planned table, and since the snapshot was taken nobody has touched that table. */
  ghost predicate Frozen(db: Database, run: Run) {
    && run.txn.lock.Some? && run.txn.lock.value in db.tables
    && Some(IdOf(db.tables[run.txn.lock.value].evidence)) == TableNamed(run.c.plan.preconditions.canonicalTable)
    && (run.txn.snapshot.Some? ==>
          CatalogOk(run.txn.snapshot.value) && run.txn.lock.value in run.txn.snapshot.value.tables
          && run.txn.snapshot.value.tables[run.txn.lock.value] == db.tables[run.txn.lock.value])
  }

  /** The locked table is as planned and satisfies the policy, and if its name is safe, the statement means it. */
  ghost predicate Validated(s: Server, db: Database, run: Run) {
    && Frozen(db, run) && run.txn.snapshot.Some?
    && run.identity == run.c.plan.preconditions.database
    && (Uncapturable(s, run.c) ==> Meant(s, db, run) == run.txn.lock)
    && PlannedTable(run.c, db.tables[run.txn.lock.value].evidence)
    && TablePolicyError(db.tables[run.txn.lock.value].evidence, run.c.analyzed.details.kind, run.c.plan.allowTriggers,
                        run.c.plan.allowRowSecurity).None?
  }

  ghost predicate Counted(s: Server, db: Database, run: Run, n: nat)
    requires Validated(s, db, run)
  {
    Exact(s, run.c) ==>
      var picked := Selected(db.tables[run.txn.lock.value].rows, Where(run.c), HomeEnv(s, run.identity));
      picked.Some? && |picked.value| == n
  }

  ghost predicate Matched(s: Server, db: Database, run: Run, n: nat)
    requires Validated(s, db, run)
  {
    && Counted(s, db, run, n)
    && n == run.c.plan.preconditions.targetCount
    && (Adding(s, run.c) ==> n == run.c.analyzed.details.insertedRows)
    && (Exact(s, run.c) ==>
          AsPlanned(s, run.c, Selected(db.tables[run.txn.lock.value].rows, Where(run.c), HomeEnv(s, run.identity)).value))
  }

  ghost predicate ReadyToCommit(s: Server, db: Database, run: Run) {
    && run.txn.delta.Some? && Validated(s, db, run)
    && var d := run.txn.delta.value;
       && (Uncapturable(s, run.c) ==> Some(d.table) == run.txn.lock && d.seen == db.tables[d.table].rows)
       && (Guarded(s, run.c) ==> Changes(s, run.c, d.seen, d.picked, d.images, d.after))
  }

  ghost predicate PhaseInv(s: Server, db: Database, run: Run, p: Phase) {
    && Sound(run.c, p)
    && (p.Committing? <==> run.txn.delta.Some?)
    && match p
       case Connecting => run.txn == CLOSED
       case Beginning => run.txn == CLOSED
       case SettingTimeouts => run.txn == CLOSED
       case Locking => run.txn == CLOSED
       case Identifying => Frozen(db, run) && run.txn.snapshot.None?
       case Inspecting(d) => Frozen(db, run) && run.txn.snapshot.Some? && d == run.identity
       case Counting(_, _) => Validated(s, db, run)
       case Fingerprinting(_, _, n) => Validated(s, db, run) && Counted(s, db, run, n)
       case Executing(_, _, n) => Validated(s, db, run) && Matched(s, db, run, n)
       case Committing(_) => ReadyToCommit(s, db, run)
       case RollingBack(_) => run.txn == CLOSED
       case Ending(_, _) => run.txn == CLOSED
  }

  /** What a terminal state says about the commit of its run. */
  predicate Truthful(state: ReceiptState, effect: Option<Effect>) {
    && (state == Committed ==> effect.Some?)
    && (state == Refused || state == RolledBack ==> effect.None?)
    && state.IsFinal()
  }

  ghost predicate RunInv(s: Server, db: Database, run: Run) {
    && (run.effect.Some? ==> EffectOk(s, run.c, run.effect.value))
    && match run.stage
       case Preparing => run.txn == CLOSED && run.effect.None?
       case Calling(p) =>
         && PhaseInv(s, db, run, p)
         && (if p.Ending? then Truthful(p.state, run.effect) else run.effect.None?)
       case Appending => run.txn == CLOSED
       case Stopped => run.txn == CLOSED
  }

  // ---------------------------------------------------------------- the invariant of the world

  ghost predicate LocksApart(w: World) {
    && (forall i, j | i in w.runs && j in w.runs && i != j && w.runs[i].txn.lock.Some? ::
          w.runs[i].txn.lock != w.runs[j].txn.lock)
    && (forall i, x | i in w.runs && x in w.foreign && w.runs[i].txn.lock.Some? ::
          w.runs[i].txn.lock.value !in w.foreign[x])
    && (forall i, j | i in w.runs && j in w.runs && i != j && w.runs[i].txn.delta.Some? ::
          w.runs[j].txn.lock != Some(w.runs[i].txn.delta.value.table))
  }

  /** The rows of a table after the last published change, unless a foreign one came later. */
  function LastRows(log: seq<Entry>, o: Oid): Option<seq<Row>> {
    if log == [] then None
    else
      var last := log[|log| - 1];
      if last.Applied? && last.effect.table == o then Some(last.effect.after)
      else if last.Foreign? && o in last.tables then None
      else LastRows(log[..|log| - 1], o)
  }

  /** Every run's change starts from what the last one left. */
  ghost predicate LogChained(log: seq<Entry>) {
    forall k | 0 <= k < |log| && log[k].Applied? ::
      LastRows(log[..k], log[k].effect.table).Some? ==>
        LastRows(log[..k], log[k].effect.table).value == log[k].effect.before
  }

  ghost predicate LogInv(w: World) {
    && LogChained(w.log)
    && (forall k | 0 <= k < |w.log| && w.log[k].Applied? ::
          w.log[k].run in w.runs && w.runs[w.log[k].run].effect == Some(w.log[k].effect))
    && (forall o | LastRows(w.log, o).Some? ::
          o in w.db.tables && w.db.tables[o].rows == LastRows(w.log, o).value)
  }

  ghost predicate Inv(s: Server, w: World) {
    && CatalogOk(w.db) && LocksApart(w) && LogInv(w)
    && (forall i | i in w.runs :: Admitted(w.runs[i].c))
    && (forall i | i in w.runs :: RunInv(s, w.db, w.runs[i]))
  }

  lemma InitialInv(s: Server, w: World)
    requires Initial(w)
    ensures Inv(s, w)
  {
  }

  // ---------------------------------------------------------------- frames

  /** The database as far as a run's lock goes. */
  ghost predicate Undisturbed(db: Database, db': Database, o: Oid) {
    o in db.tables ==> o in db'.tables && db'.tables[o] == db.tables[o]
  }

  /** The table that is found in the path has the name that was looked for, in one of the schemas. */
  lemma {:induction false} FoundInPath(path: seq<string>, db: Database, table: string)
    requires FirstInPath(path, db, table).Some?
    ensures exists k | 0 <= k < |path| :: Lookup(db, TableId(path[k], table)) == FirstInPath(path, db, table)
  {
    if TableId(path[0], table) !in db.catalog {
      FoundInPath(path[1..], db, table);
      var k :| 0 <= k < |path[1..]| && Lookup(db, TableId(path[1..][k], table)) == FirstInPath(path[1..], db, table);
      assert path[k + 1] == path[1..][k];
    }
  }

  /** The name of an undisturbed table goes on meaning it, if it is qualified or its schema comes first. */
  lemma NameStays(path: seq<string>, db: Database, db': Database, name: seq<Ident>, o: Oid)
    requires CatalogOk(db) && CatalogOk(db') && Resolve(path, db, name) == Some(o)
    requires o in db.tables && o in db'.tables && db'.tables[o] == db.tables[o]
    requires |name| == 2 || (path != [] && IdOf(db.tables[o].evidence).schema == path[0])
    ensures Resolve(path, db', name) == Some(o)
  {
    if |name| == 1 {
      var table := NameOf(name[0]);
      FoundInPath(path, db, table);
      var k :| 0 <= k < |path| && Lookup(db, TableId(path[k], table)) == Some(o);
      assert IdOf(db.tables[o].evidence) == TableId(path[0], table);
    }
  }

  /** A run keeps its invariant when others change what it has not locked. */
  lemma RunFrame(s: Server, db: Database, db': Database, run: Run)
    requires RunInv(s, db, run) && CatalogOk(db) && CatalogOk(db')
    requires run.txn.lock.Some? ==> Undisturbed(db, db', run.txn.lock.value)
    ensures RunInv(s, db', run)
  {
    hide EffectOk, Sound, Admitted, AsPlanned, ImagesOf, Selected, TablePolicyError, HomeEnv, PlannedTable, Changes, Truthful;
    hide CatalogOk;
    if run.stage.Calling? {
      PhaseFrame(s, db, db', run, run.stage.phase);
    }
  }

  lemma ValidatedFrame(s: Server, db: Database, db': Database, run: Run)
    requires Validated(s, db, run) && CatalogOk(db) && CatalogOk(db') && Undisturbed(db, db', run.txn.lock.value)
    ensures Validated(s, db', run)
  {
    hide TablePolicyError, PlannedTable, Resolve, CatalogOk;
    if Uncapturable(s, run.c) {
      NameStays(s.path(run.identity), db, db', run.c.analyzed.details.table, run.txn.lock.value);
    }
  }

  lemma PhaseFrame(s: Server, db: Database, db': Database, run: Run, p: Phase)
    requires PhaseInv(s, db, run, p) && CatalogOk(db) && CatalogOk(db')
    requires run.txn.lock.Some? ==> Undisturbed(db, db', run.txn.lock.value)
    ensures PhaseInv(s, db', run, p)
  {
    hide EffectOk, Sound, Admitted, AsPlanned, ImagesOf, Selected, TablePolicyError, HomeEnv, PlannedTable, Changes, Meant;
    hide CatalogOk, Uncapturable;
    if run.txn.lock.Some? && run.txn.snapshot.Some? && !p.Inspecting? {
      ValidatedFrame(s, db, db', run);
    }
  }
}

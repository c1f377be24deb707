/**
 Any number of runs beside any number of foreign sessions, with failures and crashes at every step.

 A run is one process: the receipt it writes byte by byte and the database calls of the automaton.  A
 foreign session takes locks that conflict with SHARE ROW EXCLUSIVE (every lock that lets it write a table
 or change its definition), and publishes arbitrary changes to what it has locked.  A transaction's snapshot
 is taken by its first query and not by BEGIN, SET LOCAL or LOCK TABLE (sections 13.2.2 and 13.3.1 of the
 PostgreSQL documentation).
 */
module Protocol {
  import opened Wrappers
  import opened Integrity
  import opened Model
  import opened Receipt
  import opened Journal
  import opened Fingerprint
  import opened Db
  import opened Sql
  import opened SqlMeaning
  import opened Evidence
  import opened Engine
  import opened PlanCreation
  import opened Outcome
  import opened Apply

  // ---------------------------------------------------------------- the state

  datatype Relation = Relation(evidence: TableEvidence, rows: seq<Row>)

  /** A table's identity, which outlives its name. */
  type Oid = I64

  /** Committed contents, and the tables by name. */
  datatype Database = Database(tables: map<Oid, Relation>, catalog: map<TableId, Oid>)

  /**
   What an executed statement has made of the rows it saw, not yet visible to others: the rows it takes out
   and puts in, and the whole result.
   */
  datatype Delta = Delta(table: Oid, seen: seq<Row>, picked: seq<Row>, images: seq<Row>, after: seq<Row>)

  datatype Txn = Txn(lock: Option<Oid>, snapshot: Option<Database>, delta: Option<Delta>)

  const CLOSED := Txn(None, None, None)

  /** What a commit published: the table as it was, its new rows, and the rows taken out and put in. */
  datatype Effect = Effect(
    table: Oid,
    evidence: TableEvidence,
    before: seq<Row>,
    after: seq<Row>,
    picked: seq<Row>,
    images: seq<Row>)

  datatype Stage = Preparing | Calling(phase: Phase) | Appending | Stopped

  datatype Run = Run(
    c: Context,
    identity: DatabaseIdentity,
    stage: Stage,
    txn: Txn,
    prepared: ReceiptEvent,
    terminal: Option<ReceiptEvent>,
    file: string,
    synced: nat,
    effect: Option<Effect>)

  datatype Entry = Applied(run: nat, effect: Effect) | Foreign(tables: set<Oid>)

  datatype World = World(db: Database, foreign: map<nat, set<Oid>>, runs: map<nat, Run>, log: seq<Entry>)

  /** How the server looks up names, evaluates and renders for a session, and how it collates. */
  datatype Server = Server(
    path: DatabaseIdentity -> seq<string>,
    env: (DatabaseIdentity, Database) -> Env,
    rendering: DatabaseIdentity -> Rendering,
    order: Order)

  const NO_TABLES := Database(map[], map[])

  /** Casts and operators depend on the session's settings and on nothing stored. */
  ghost predicate Trusted(s: Server) {
    forall d, x, y :: SameServer(s.env(d, x), s.env(d, y))
  }

  function HomeEnv(s: Server, d: DatabaseIdentity): Env {
    s.env(d, NO_TABLES)
  }

  function Lookup(db: Database, id: TableId): Option<Oid> {
    if id in db.catalog then Some(db.catalog[id]) else None
  }

  /** The first schema of the search path with a table of this name. */
  function FirstInPath(path: seq<string>, db: Database, table: string): Option<Oid> {
    if path == [] then None
    else if TableId(path[0], table) in db.catalog then Some(db.catalog[TableId(path[0], table)])
    else FirstInPath(path[1..], db, table)
  }

  /** What a name means now: the search path matters only to an unqualified one. */
  function Resolve(path: seq<string>, db: Database, name: seq<Ident>): Option<Oid> {
    if |name| == 2 then Lookup(db, TableId(NameOf(name[0]), NameOf(name[1])))
    else if |name| == 1 then FirstInPath(path, db, NameOf(name[0]))
    else None
  }

  /** Every table has one name, and every name one table. */
  predicate CatalogOk(db: Database) {
    && (forall o | o in db.tables ::
          && db.tables[o].evidence.oid == o
          && IdOf(db.tables[o].evidence) in db.catalog && db.catalog[IdOf(db.tables[o].evidence)] == o)
    && (forall id | id in db.catalog ::
          db.catalog[id] in db.tables && IdOf(db.tables[db.catalog[id]].evidence) == id)
  }

  // ---------------------------------------------------------------- what a statement does

  /** One execution on some rows: its result, and who is taken out and what is put in on the way. */
  predicate Performs(st: Statement, rows: seq<Row>, env: Env, picked: seq<Row>, images: seq<Row>, result: Executed) {
    match st
    case UpdateStatement(_, assignments, selection, _) =>
      && selection.Some?
      && ExecuteUpdate(rows, assignments, selection.value, env) == Some(result)
      && Selected(rows, selection.value, env) == Some(picked)
      && AssignedAll(picked, assignments, env) == Some(images)
    case DeleteStatement(_, _, selection, _) =>
      && selection.Some?
      && ExecuteDelete(rows, selection.value, env) == Some(result)
      && Selected(rows, selection.value, env) == Some(picked)
      && images == []
    case InsertStatement(_, _, source, _) =>
      && source.ValuesSource? && |images| == |source.rows| && picked == []
      && result == Executed(rows + images, |images|)
    case OtherStatement(_) => false
  }

  /** The answer to the target query; a name that its FROM item does not expose is an error. */
  function StreamFor(s: Server, d: DatabaseIdentity, q: TargetQuery, picked: seq<Row>): Stream {
    if InScope(q) then Stream(TargetTexts(s.order, q.rowReference, picked, s.rendering(d)), false) else Stream([], true)
  }

  /** The table that the name of a run's statement means now; each query and the statement look it up anew. */
  function Meant(s: Server, db: Database, run: Run): Option<Oid> {
    Resolve(s.path(run.identity), db, run.c.analyzed.details.table)
  }

  /** The rows of a table in the snapshot; a table created since has none. */
  function VisibleRows(run: Run, o: Oid): seq<Row> {
    if run.txn.snapshot.Some? && o in run.txn.snapshot.value.tables then run.txn.snapshot.value.tables[o].rows else []
  }

  /** What a query on the statement's table reads. */
  function Seen(s: Server, db: Database, run: Run): Option<Relation> {
    var o :- Meant(s, db, run);
    if o in db.tables then Some(Relation(db.tables[o].evidence, VisibleRows(run, o))) else None
  }

  /** What the catalog queries find: the name is looked up now, the definition is that of the snapshot. */
  function SeenDefinition(s: Server, db: Database, run: Run): Option<TableEvidence> {
    var o :- Meant(s, db, run);
    if run.txn.snapshot.Some? && o in run.txn.snapshot.value.tables then
      Some(run.txn.snapshot.value.tables[o].evidence)
    else None
  }

  /** The answers a call may get.  Any call may break; on a table that is not plain, rows are not predicted. */
  ghost predicate Answers(s: Server, db: Database, run: Run, p: Phase, r: Reply) {
    || r.Broken?
    || match p
       case Connecting => r == ConnectedBy(RequestedTransport(run.c.insecure))
       case Beginning => r == Fine
       case SettingTimeouts => r == Fine
       case Locking => r == Fine
       case Identifying => r == IdentityIs(run.identity)
       case Inspecting(_) =>
         SeenDefinition(s, db, run).Some? && r == EvidenceIs(SeenDefinition(s, db, run).value)
       case Counting(_, _) =>
         && Seen(s, db, run).Some? && r.CountIs? && run.c.analyzed.details.count.Some?
         && (Plain(Seen(s, db, run).value.evidence) ==>
               CountRows(Seen(s, db, run).value.rows, run.c.analyzed.details.count.value, TrueEnv(s, run)) == Some(r.count))
       case Fingerprinting(_, _, _) =>
         && Seen(s, db, run).Some? && r.RowsAre? && run.c.analyzed.details.targetRows.Some?
         && (Plain(Seen(s, db, run).value.evidence) && !r.rows.broken ==>
               var q := run.c.analyzed.details.targetRows.value;
               var picked := Selected(Seen(s, db, run).value.rows, q.selection, TrueEnv(s, run));
               picked.Some? && r.rows == StreamFor(s, run.identity, q, picked.value))
       case Executing(_, _, _) => r.AffectedAre?
       case RollingBack(_) => r == Fine
       case Committing(_) => r == Fine
       case Ending(_, _) => false
  }

  /** A query is evaluated in the world of its snapshot. */
  function TrueEnv(s: Server, run: Run): Env {
    s.env(run.identity, if run.txn.snapshot.Some? then run.txn.snapshot.value else NO_TABLES)
  }

  // ---------------------------------------------------------------- steps

  datatype Action =
    | Arrive(i: nat)
    | Write(i: nat, n: nat)
    | Synced(i: nat)
    | DiskFails(i: nat)
    | Call(i: nat, reply: Reply)
    | Execute(i: nat, affected: U64, delta: Delta)
    | Commit(i: nat, rows: seq<Row>, reply: Reply)
    | Stamp(i: nat, now: U64)
    | ClockFails(i: nat)
    | Crash(i: nat, kept: nat)
    | ForeignLock(x: nat, o: Oid)
    | ForeignCommit(x: nat, db: Database)
    | ForeignAbort(x: nat)

  /** The analyzed details are those of the statement. */
  predicate Derived(c: Context) {
    AnalyzeStatement(c.analyzed.statement) == Ok(c.analyzed.details)
  }

  /** A run whose checks before the receipt have passed: by `Planning.ContextIsAdmitted`, every run of the program. */
  predicate Admitted(c: Context) {
    && VerifiedPlanSha256(c.hash, c.plan).Ok?
    && LimitsError(c.plan.limits).None?
    && BindingError(c.plan, c.analyzed).None?
    && Derived(c)
  }

  predicate Arriving(run: Run) {
    && Admitted(run.c)
    && run.prepared == PreparedFor(run.c.hash, VerifiedPlanSha256(run.c.hash, run.c.plan).value,
                                   run.c.analyzed.sqlFileSha256, run.prepared.timestampUnixMs)
    && run.stage == Preparing && run.txn == CLOSED && run.terminal.None? && run.file == "" && run.synced == 0
    && run.effect.None?
  }

  /** What the file would hold if every append so far were complete. */
  function Whole(run: Run): string {
    EventLine(run.prepared) + (if run.terminal.Some? then EventLine(run.terminal.value) else "")
  }

  predicate Locked(w: World, o: Oid) {
    exists i :: i in w.runs && w.runs[i].txn.lock == Some(o)
  }

  /** Nobody holds a lock on the table that conflicts with SHARE ROW EXCLUSIVE, a written table being one. */
  predicate Free(w: World, o: Oid) {
    && (forall x | x in w.foreign :: o !in w.foreign[x])
    && !Locked(w, o)
    && (forall i | i in w.runs && w.runs[i].txn.delta.Some? :: w.runs[i].txn.delta.value.table != o)
  }

  /** The table to be locked, by its canonical name. */
  function LockTarget(db: Database, c: Context): Option<Oid> {
    var id :- TableNamed(c.plan.preconditions.canonicalTable);
    Lookup(db, id)
  }

  /** The transaction after a call that did not execute or commit; a failed run loses its transaction. */
  function TxnAfter(db: Database, run: Run, p: Phase, next: Phase): Txn {
    if next.Ending? || next.RollingBack? then CLOSED
    else if p.Locking? then run.txn.(lock := LockTarget(db, run.c))
    else if p.Identifying? && run.txn.snapshot.None? then run.txn.(snapshot := Some(db))
    else run.txn
  }

  function Called(db: Database, run: Run, reply: Reply): Run
    requires run.stage.Calling?
  {
    var p := run.stage.phase;
    var next := Advance(run.c, p, reply);
    run.(stage := Calling(next), txn := TxnAfter(db, run, p, next))
  }

  predicate CanLock(w: World, run: Run) {
    LockTarget(w.db, run.c).Some? && Free(w, LockTarget(w.db, run.c).value)
  }

  function AfterExecute(run: Run, affected: U64, delta: Delta): Run
    requires run.stage.Calling?
  {
    var next := Advance(run.c, run.stage.phase, AffectedAre(affected));
    run.(stage := Calling(next), txn := if next.Committing? then run.txn.(delta := Some(delta)) else CLOSED)
  }

  /**
   The statement looks up its table anew, waits until no other run has it locked, works on the rows of the
   snapshot, and fails if a row that it takes is gone from the committed table.
   */
  ghost predicate Executes(s: Server, w: World, i: nat, affected: U64, delta: Delta)
    requires i in w.runs
  {
    var run := w.runs[i];
    && run.stage.Calling? && run.stage.phase.Executing?
    && Meant(s, w.db, run) == Some(delta.table) && delta.table in w.db.tables
    && (forall j | j in w.runs && j != i :: w.runs[j].txn.lock != Some(delta.table))
    && delta.seen == VisibleRows(run, delta.table)
    && multiset(delta.picked) <= multiset(w.db.tables[delta.table].rows)
    && (Plain(w.db.tables[delta.table].evidence) ==>
          Performs(run.c.analyzed.statement, delta.seen, TrueEnv(s, run), delta.picked, delta.images,
                   Executed(delta.after, affected)))
  }

  /** The table after the commit: the statement's own result, unless others have changed the table since. */
  function NewRows(rows: seq<Row>, d: Delta): multiset<Row> {
    if rows == d.seen then multiset(d.after) else multiset(rows) - multiset(d.picked) + multiset(d.images)
  }

  function EffectOf(d: Delta, rel: Relation, rows: seq<Row>): Effect {
    Effect(d.table, rel.evidence, rel.rows, rows, d.picked, d.images)
  }

  function Published(run: Run, rel: Relation, rows: seq<Row>): Run
    requires run.txn.delta.Some?
  {
    run.(effect := Some(EffectOf(run.txn.delta.value, rel, rows)))
  }

  /** The commit takes effect at once for everybody, whether or not the client learns of it. */
  ghost predicate Publishes(w: World, i: nat, rows: seq<Row>, reply: Reply, w': World)
    requires i in w.runs
  {
    var run := w.runs[i];
    && run.stage.Calling? && run.stage.phase.Committing? && (reply.Fine? || reply.Broken?)
    && run.txn.delta.Some? && run.txn.delta.value.table in w.db.tables
    && var d := run.txn.delta.value; var rel := w.db.tables[d.table];
       && multiset(rows) == NewRows(rel.rows, d)
       && w' == w.(db := w.db.(tables := w.db.tables[d.table := rel.(rows := rows)]),
                   runs := w.runs[i := Called(w.db, Published(run, rel, rows), reply)],
                   log := w.log + [Applied(i, EffectOf(d, rel, rows))])
  }

  /**
   A foreign commit creates, drops, renames, moves, redefines and rewrites tables as it likes, but only what
   is locked for it.  Its new tables may take any free name, in any schema.
   */
  ghost predicate ForeignPublishes(w: World, x: nat, db: Database, w': World) {
    && x in w.foreign && CatalogOk(db)
    && (forall o | o !in w.foreign[x] :: (o in w.db.tables <==> o in db.tables)
                                         && (o in db.tables ==> db.tables[o] == w.db.tables[o]))
    && w' == w.(db := db, foreign := w.foreign - {x}, log := w.log + [Foreign(w.foreign[x])])
  }

  function With(w: World, i: nat, run: Run): World {
    w.(runs := w.runs[i := run])
  }

  /** The steps of a run on its own file: bytes arrive, a sync succeeds or fails, the clock is read, it crashes. */
  ghost predicate FileDoes(run: Run, a: Action, next: Run) {
    match a
    case Write(_, n) =>
      && (run.stage.Preparing? || run.stage.Appending?) && |run.file| <= n <= |Whole(run)|
      && next == run.(file := Whole(run)[..n])
    case Synced(_) =>
      && run.file == Whole(run)
      && (if run.stage.Preparing? then next == run.(synced := |run.file|, stage := Calling(Start(run.c)))
          else run.stage.Appending? && next == run.(synced := |run.file|, stage := Stopped, txn := CLOSED))
    case DiskFails(_) => (run.stage.Preparing? || run.stage.Appending?) && next == run.(stage := Stopped, txn := CLOSED)
    case Stamp(_, now) =>
      && run.stage.Calling? && run.stage.phase.Ending?
      && next == run.(
           stage := Appending,
           terminal := Some(FinalEvent(run.c.hash, run.prepared, run.stage.phase.state, run.stage.phase.result, now)))
    case ClockFails(_) =>
      run.stage.Calling? && run.stage.phase.Ending? && next == run.(stage := Stopped, txn := CLOSED)
    case Crash(_, kept) =>
      && !run.stage.Stopped? && run.synced <= kept <= |run.file|
      && next == run.(stage := Stopped, txn := CLOSED, file := run.file[..kept])
    case _ => false
  }

  ghost predicate Calls(s: Server, w: World, run: Run, reply: Reply) {
    && run.stage.Calling? && !run.stage.phase.Ending?
    && Answers(s, w.db, run, run.stage.phase, reply)
    && (run.stage.phase.Executing? || run.stage.phase.Committing? ==> reply.Broken?)
    && (run.stage.phase.Locking? && reply.Fine? ==> CanLock(w, run))
  }

  ghost predicate Does(s: Server, w: World, a: Action, w': World) {
    match a
    case Arrive(i) => i !in w.runs && i in w'.runs && Arriving(w'.runs[i]) && w' == With(w, i, w'.runs[i])
    case Call(i, reply) => i in w.runs && Calls(s, w, w.runs[i], reply) && w' == With(w, i, Called(w.db, w.runs[i], reply))
    case Execute(i, affected, delta) =>
      && i in w.runs && Executes(s, w, i, affected, delta)
      && w' == With(w, i, AfterExecute(w.runs[i], affected, delta))
    case Commit(i, rows, reply) => i in w.runs && Publishes(w, i, rows, reply, w')
    case ForeignLock(x, o) =>
      && !Locked(w, o)
      && w' == w.(foreign := w.foreign[x := (if x in w.foreign then w.foreign[x] else {}) + {o}])
    case ForeignCommit(x, db) => ForeignPublishes(w, x, db, w')
    case ForeignAbort(x) => w' == w.(foreign := w.foreign - {x})
    case _ =>
      && a.i in w.runs && a.i in w'.runs && FileDoes(w.runs[a.i], a, w'.runs[a.i])
      && w' == With(w, a.i, w'.runs[a.i])
  }

  ghost predicate Initial(w: World) {
    CatalogOk(w.db) && w.foreign == map[] && w.runs == map[] && w.log == []
  }

  ghost predicate Follows(s: Server, w: World, w': World) {
    exists a :: Does(s, w, a, w')
  }

  /** A history of the whole system, without schema renames: every world follows from the one before. */
  ghost predicate History(s: Server, ws: seq<World>) {
    && ws != [] && Initial(ws[0])
    && forall k | 0 <= k < |ws| - 1 :: Follows(s, ws[k], ws[k + 1])
  }

  // ---------------------------------------------------------------- what histories leave out

  /** The new name of a table when a schema is renamed. */
  function MovedName(id: TableId, from: string, to: string): TableId {
    if id.schema == from then TableId(to, id.table) else id
  }

  /** ALTER SCHEMA RENAME gives every table of the schema a new name and locks none of them. */
  ghost predicate RenamesSchema(w: World, from: string, to: string, w': World) {
    && CatalogOk(w'.db) && w'.db.tables.Keys == w.db.tables.Keys
    && (forall id | id in w.db.catalog :: id.schema != to)
    && (forall o | o in w.db.tables ::
          var e := w.db.tables[o].evidence;
          w'.db.tables[o] == w.db.tables[o].(evidence := e.(schema := MovedName(IdOf(e), from, to).schema)))
    && w' == w.(db := w'.db)
  }

  ghost predicate FollowsLoosely(s: Server, w: World, w': World) {
    Follows(s, w, w') || exists from, to :: RenamesSchema(w, from, to, w')
  }

  /** A history in which schemas may be renamed as well. */
  ghost predicate LooseHistory(s: Server, ws: seq<World>) {
    && ws != [] && Initial(ws[0])
    && forall k | 0 <= k < |ws| - 1 :: FollowsLoosely(s, ws[k], ws[k + 1])
  }
}

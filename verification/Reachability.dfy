/**
 The protocol gets through: from every plan there is a history in which its change is published.  So the
 hypotheses of the safety theorems can be met.
 */
module Reachability {
  import opened Wrappers
  import opened Integrity
  import opened Model
  import opened Receipt
  import opened Journal
  import opened Db
  import opened Sql
  import opened SqlMeaning
  import opened Evidence
  import opened Sorting
  import opened Engine
  import opened PlanCreation
  import opened Outcome
  import opened Apply
  import opened Protocol
  import opened ProtocolInvariant
  import opened ProtocolSteps
  import opened Planning
  import opened ApplyTheorems
  import opened Completeness

  /** An apply of a made plan on the database that it was made for, where the statement goes through. */
  ghost predicate Alone(s: Server, c: Context, p: Planning, x: Scene) {
    && Trusted(s) && TotalOrder(s.order)
    && MadeBy(s, c.hash, p, c.plan) && c.analyzed == Analyzed(c.hash, p) && Unacknowledged(c)
    && x == Scene(s, p.identity, Target(s, p, c.analyzed).value, s.env(p.identity, p.db), x.affected)
    && GoesThrough(c.analyzed.statement, x)
    && RequestedTransport(c.insecure) == c.plan.transportPolicy
  }

  /** A database in which the scene's table is the one that the name means and that the plan locks. */
  ghost predicate Staged(c: Context, x: Scene, db: Database, o: Oid) {
    && CatalogOk(db) && o in db.tables && db.tables[o] == x.rel
    && Resolve(x.server.path(x.identity), db, c.analyzed.details.table) == Some(o)
    && LockTarget(db, c) == Some(o)
    && x.env == x.server.env(x.identity, db)
  }

  lemma PlannedIsStaged(s: Server, c: Context, p: Planning, x: Scene) returns (o: Oid)
    requires Alone(s, c, p, x)
    ensures Staged(c, x, p.db, o) && Resolve(s.path(p.identity), p.db, c.analyzed.details.table) == Some(o)
    ensures TableNamed(c.plan.preconditions.canonicalTable) == Some(IdOf(x.rel.evidence))
  {
    hide TableNamed, CanonicalName, AnalyzeSql, PlanChecks, GoesThrough, TotalOrder, Trusted, Resolve;
    PlanRecords(s, c.hash, p, c.plan);
    o := Resolve(s.path(p.identity), p.db, c.analyzed.details.table).value;
    CanonicalRoundTrip(IdOf(x.rel.evidence));
  }

  function TxnAt(db: Database, o: Oid, ph: Phase): Txn {
    if ph.Identifying? then Txn(Some(o), None, None)
    else if ph.Inspecting? || ph.Counting? || ph.Fingerprinting? || ph.Executing? then Txn(Some(o), Some(db), None)
    else CLOSED
  }

  /** The only run is at a call, and its transaction is what the calls so far have made it. */
  ghost predicate Along(c: Context, x: Scene, db: Database, o: Oid, w: World, ph: Phase) {
    && w.db == db && w.foreign == map[] && w.runs.Keys == {0}
    && var run := w.runs[0];
       run.c == c && run.identity == x.identity && run.stage == Calling(ph) && run.effect.None?
       && run.txn == TxnAt(db, o, ph)
  }

  /** The true answers are among the possible ones. */
  lemma AnswerIsTrue(c: Context, x: Scene, db: Database, o: Oid, w: World, ph: Phase)
    requires Along(c, x, db, o, w, ph) && Staged(c, x, db, o) && !ph.Ending? && !ph.Executing?
    ensures Answers(x.server, w.db, w.runs[0], ph, Answer(c, x, ph))
  {
    hide Selected, CountRows, TargetTexts, TableNamed, Resolve, CatalogOk;
  }

  /** One call leads to the next phase. */
  lemma CallAlong(c: Context, x: Scene, db: Database, o: Oid, w: World, ph: Phase)
    requires Along(c, x, db, o, w, ph) && Staged(c, x, db, o)
    requires !ph.Ending? && !ph.Executing? && !ph.Committing? && !ph.RollingBack?
    requires var q := Advance(c, ph, Answer(c, x, ph)); !q.Ending? && !q.RollingBack?
    ensures var w' := With(w, 0, Called(w.db, w.runs[0], Answer(c, x, ph)));
      Follows(x.server, w, w') && Along(c, x, db, o, w', Advance(c, ph, Answer(c, x, ph)))
  {
    hide Answer, Answers, Advance, TableNamed, Resolve, CatalogOk;
    var run, reply := w.runs[0], Answer(c, x, ph);
    AnswerIsTrue(c, x, db, o, w, ph);
    NextKind(c, ph, reply);
    assert ph.Locking? ==> CanLock(w, run);
    assert Calls(x.server, w, run, reply);
    assert Does(x.server, w, Call(0, reply), With(w, 0, Called(w.db, run, reply)));
  }

  /** Which phases follow which. */
  lemma NextKind(c: Context, ph: Phase, r: Reply)
    requires !ph.Ending? && !ph.Executing? && !ph.Committing? && !ph.RollingBack?
    requires var q := Advance(c, ph, r); !q.Ending? && !q.RollingBack?
    ensures var q := Advance(c, ph, r);
      match ph
      case Connecting => q == Beginning
      case Beginning => q == SettingTimeouts
      case SettingTimeouts => q == Locking
      case Locking => q == Identifying
      case Identifying => q.Inspecting?
      case _ => q.Counting? || q.Fingerprinting? || q.Executing?
  {
    hide TableSchemaSha256, TablePolicyError, CanonicalTable;
  }

  lemma Extended(s: Server, ws: seq<World>, w: World)
    requires History(s, ws) && Follows(s, ws[|ws| - 1], w)
    ensures History(s, ws + [w])
  {
    hide Does, Initial;
    var more := ws + [w];
    forall k | 0 <= k < |more| - 1 ensures Follows(s, more[k], more[k + 1]) {
      if k < |ws| - 1 {
        assert Follows(s, ws[k], ws[k + 1]);
      }
    }
  }

  lemma NotEmpty(s: Server, ws: seq<World>)
    requires History(s, ws)
    ensures ws != []
  {
    hide Does, Initial;
  }

  /** A run that heads for its commit has not failed, and does not fail next. */
  lemma HeadsOn(c: Context, x: Scene, ph: Phase)
    requires !ph.Ending? && !ph.Committing? && Destination(c, x, ph).Ending? && Destination(c, x, ph).state == Committed
    ensures !ph.RollingBack?
    ensures var q := Advance(c, ph, Answer(c, x, ph));
      !q.Ending? && !q.RollingBack? && Destination(c, x, q) == Destination(c, x, ph)
  {
    hide Advance, Answer, Destination;
    var q := Advance(c, ph, Answer(c, x, ph));
    Onward(c, x, ph);
    NotYetCommitted(c, ph, Answer(c, x, ph));
    LastCalls(c, ph, Answer(c, x, ph));
    if q.Ending? {
      AtTheEnd(c, x, q);
    }
    if q.RollingBack? {
      LastCalls(c, q, Answer(c, x, q));
      Onward(c, x, q);
      AtTheEnd(c, x, Advance(c, q, Answer(c, x, q)));
    }
  }

  lemma AtTheEnd(c: Context, x: Scene, ph: Phase)
    requires ph.Ending?
    ensures Destination(c, x, ph) == ph
  {
  }

  /** The run goes on to the execution. */
  lemma {:induction false} GoesOn(c: Context, x: Scene, db: Database, o: Oid, ws: seq<World>, ph: Phase)
    returns (more: seq<World>, last: Phase)
    requires History(x.server, ws) && Along(c, x, db, o, ws[|ws| - 1], ph) && Staged(c, x, db, o)
    requires Sound(c, ph) && !ph.Ending? && !ph.Committing?
    requires Destination(c, x, ph).Ending? && Destination(c, x, ph).state == Committed
    ensures History(x.server, more) && Along(c, x, db, o, more[|more| - 1], last)
    ensures last.Executing? && last.count == c.plan.preconditions.targetCount
    decreases Rank(ph)
  {
    hide *;
    HeadsOn(c, x, ph);
    NotEmpty(x.server, ws);
    if ph.Executing? {
      SoundCount(c, ph);
      more, last := ws, ph;
    } else {
      var w, q := ws[|ws| - 1], Advance(c, ph, Answer(c, x, ph));
      assert 0 in w.runs && w.runs[0].stage.Calling? by { IsAlong(c, x, db, o, w, ph); }
      CallAlong(c, x, db, o, w, ph);
      NextKind(c, ph, Answer(c, x, ph));
      AdvanceRanks(c, ph, Answer(c, x, ph));
      AdvanceSound(c, ph, Answer(c, x, ph));
      var w' := With(w, 0, Called(w.db, w.runs[0], Answer(c, x, ph)));
      Extended(x.server, ws, w');
      more, last := GoesOn(c, x, db, o, ws + [w'], q);
    }
  }

  lemma SoundCount(c: Context, ph: Phase)
    requires Sound(c, ph) && ph.Executing?
    ensures ph.count == c.plan.preconditions.targetCount
  {
  }

  lemma IsAlong(c: Context, x: Scene, db: Database, o: Oid, w: World, ph: Phase)
    requires Along(c, x, db, o, w, ph)
    ensures 0 in w.runs && w.runs[0].stage.Calling?
  {
  }

  // ---------------------------------------------------------------- execution and commit

  /** The rows that a statement takes are rows of the table. */
  lemma PickedAreRows(st: Statement, rows: seq<Row>, env: Env, picked: seq<Row>, images: seq<Row>, result: Executed)
    requires Performs(st, rows, env, picked, images, result)
    ensures multiset(picked) <= multiset(rows)
  {
    hide Selected, AssignedAll, ExecuteUpdate, ExecuteDelete;
    if st.UpdateStatement? {
      UpdateAgrees(rows, st.assignments, st.selection.value, env);
    } else if st.DeleteStatement? {
      DeleteAgrees(rows, st.selection.value, env);
    }
  }

  /** The only run is about to execute, and its statement means a table with the rows of the snapshot. */
  ghost predicate AtStatement(c: Context, x: Scene, w: World, o: Oid) {
    && w.runs.Keys == {0} && o in w.db.tables && w.db.tables[o].rows == x.rel.rows
    && var run := w.runs[0];
       && run.c == c && run.identity == x.identity && run.stage.Calling? && run.stage.phase.Executing?
       && run.stage.phase.count == x.affected && run.txn.snapshot.Some?
       && Meant(x.server, w.db, run) == Some(o) && VisibleRows(run, o) == x.rel.rows
       && TrueEnv(x.server, run) == x.env
  }

  /** The statement is executed, and the run is about to commit. */
  ghost predicate AboutToCommit(c: Context, w: World, delta: Delta) {
    && w.runs.Keys == {0} && delta.table in w.db.tables
    && var run := w.runs[0];
       run.c == c && run.stage.Calling? && run.stage.phase.Committing? && run.txn.delta == Some(delta)
  }

  lemma ExecuteAlong(c: Context, x: Scene, w: World, o: Oid) returns (next: World, delta: Delta)
    requires AtStatement(c, x, w, o) && GoesThrough(c.analyzed.statement, x)
    ensures Follows(x.server, w, next) && AboutToCommit(c, next, delta) && delta.table == o && next.db == w.db
  {
    hide Performs, TableNamed, Meant, TrueEnv;
    var run := w.runs[0];
    var picked, images, after :| Performs(c.analyzed.statement, x.rel.rows, x.env, picked, images, Executed(after, x.affected));
    PickedAreRows(c.analyzed.statement, x.rel.rows, x.env, picked, images, Executed(after, x.affected));
    delta := Delta(o, x.rel.rows, picked, images, after);
    ExecutedPhase(c, run.stage.phase, x.affected);
    hide Advance;
    next := With(w, 0, AfterExecute(run, x.affected, delta));
    assert Executes(x.server, w, 0, x.affected, delta);
    assert Does(x.server, w, Execute(0, x.affected, delta), next);
  }

  ghost function SomeOrder(m: multiset<Row>): (rows: seq<Row>)
    ensures multiset(rows) == m
    decreases |m|
  {
    if m == multiset{} then []
    else
      var r :| r in m;
      var rest := SomeOrder(m - multiset{r});
      assert multiset([r] + rest) == multiset{r} + multiset(rest);
      [r] + rest
  }

  /** The last commit published the run's change, in this table as it was. */
  ghost predicate PublishedIn(c: Context, w: World, o: Oid, rel: Relation) {
    && 0 in w.runs && w.runs[0].c == c && w.runs[0].effect.Some?
    && w.log != [] && w.log[|w.log| - 1].Applied? && w.log[|w.log| - 1].run == 0
    && w.runs[0].effect == Some(w.log[|w.log| - 1].effect)
    && w.runs[0].effect.value.table == o && w.runs[0].effect.value.evidence == rel.evidence
    && w.runs[0].effect.value.before == rel.rows
  }

  /** The world after the commit of the only run. */
  function AfterCommit(w: World, rel: Relation, delta: Delta, rows: seq<Row>): World
    requires 0 in w.runs && w.runs[0].stage.Calling? && w.runs[0].txn.delta.Some?
  {
    w.(db := w.db.(tables := w.db.tables[delta.table := rel.(rows := rows)]),
       runs := w.runs[0 := Called(w.db, Published(w.runs[0], rel, rows), Fine)],
       log := w.log + [Applied(0, EffectOf(delta, rel, rows))])
  }

  lemma PublishedThere(c: Context, w: World, delta: Delta, rows: seq<Row>)
    requires AboutToCommit(c, w, delta)
    ensures var rel := w.db.tables[delta.table]; PublishedIn(c, AfterCommit(w, rel, delta, rows), delta.table, rel)
  {
    hide Advance, TxnAfter;
    var run, rel := w.runs[0], w.db.tables[delta.table];
    CalledKeepsEffect(w.db, Published(run, rel, rows), Fine);
    CommittedIsClosed(w.db, run, rel, rows, Fine);
  }

  lemma CommitAlong(s: Server, c: Context, w: World, delta: Delta) returns (next: World)
    requires AboutToCommit(c, w, delta)
    ensures Follows(s, w, next) && PublishedIn(c, next, delta.table, w.db.tables[delta.table])
  {
    hide Called, NewRows, Follows, PublishedIn;
    var rel := w.db.tables[delta.table];
    var rows := SomeOrder(NewRows(rel.rows, delta));
    next := AfterCommit(w, rel, delta, rows);
    PublishedThere(c, w, delta, rows);
    assert Publishes(w, 0, rows, Fine, next);
    Done(s, w, Commit(0, rows, Fine), next);
  }

  lemma Done(s: Server, w: World, a: Action, next: World)
    requires Does(s, w, a, next)
    ensures Follows(s, w, next)
  {
    hide Does;
  }

  /** Whatever table the statement means, the change goes through and is published there. */
  lemma FinishSteps(c: Context, x: Scene, w: World, o: Oid) returns (w1: World, w2: World)
    requires AtStatement(c, x, w, o) && GoesThrough(c.analyzed.statement, x)
    ensures Follows(x.server, w, w1) && Follows(x.server, w1, w2)
    ensures o in w.db.tables && PublishedIn(c, w2, o, w.db.tables[o])
  {
    hide Follows, AboutToCommit, GoesThrough, Meant, TrueEnv;
    var delta;
    w1, delta := ExecuteAlong(c, x, w, o);
    assert delta.table in w1.db.tables by { IsAboutToCommit(c, w1, delta); }
    w2 := CommitAlong(x.server, c, w1, delta);
  }

  lemma IsAboutToCommit(c: Context, w: World, delta: Delta)
    requires AboutToCommit(c, w, delta)
    ensures delta.table in w.db.tables
  {
  }

  lemma Finishes(c: Context, x: Scene, ws: seq<World>, o: Oid) returns (more: seq<World>)
    requires History(x.server, ws) && AtStatement(c, x, ws[|ws| - 1], o) && GoesThrough(c.analyzed.statement, x)
    ensures History(x.server, more)
    ensures o in ws[|ws| - 1].db.tables && PublishedIn(c, more[|more| - 1], o, ws[|ws| - 1].db.tables[o])
  {
    hide *;
    NotEmpty(x.server, ws);
    var w1, w2 := FinishSteps(c, x, ws[|ws| - 1], o);
    Extended(x.server, ws, w1);
    Extended(x.server, ws + [w1], w2);
    more := ws + [w1] + [w2];
  }

  // ---------------------------------------------------------------- the beginning

  /** The run before its first call. */
  function FreshRun(c: Context, d: DatabaseIdentity, seal: string, now: U64): Run {
    Run(c, d, Preparing, CLOSED, PreparedFor(c.hash, seal, c.analyzed.sqlFileSha256, now), None, "", 0, None)
  }

  lemma AloneIsAdmitted(s: Server, c: Context, p: Planning, x: Scene)
    requires Alone(s, c, p, x)
    ensures Admitted(c)
  {
    hide AnalyzeSql, PlanChecks, VerifiedPlanSha256, LimitsError, BindingError, AnalyzeStatement, GoesThrough, Sees;
    MadePlanIsUsable(c.hash, p.grammar, p.blank, p.options, p.raw, p.answers, p.clock);
    AnalyzedIsDerived(c.hash, p.grammar, p.blank, p.raw);
  }

  /** The receipt is written and synced, and the run is at its first call. */
  lemma Begun(c: Context, x: Scene, db: Database, o: Oid, now: U64) returns (ws: seq<World>)
    requires Admitted(c) && CatalogOk(db) && RequestedTransport(c.insecure) == c.plan.transportPolicy
    ensures History(x.server, ws) && Along(c, x, db, o, ws[|ws| - 1], Connecting)
  {
    hide VerifiedPlanSha256, LimitsError, BindingError, EventLine, PreparedFor, CatalogOk, Derived;
    var s := x.server;
    var r0 := FreshRun(c, x.identity, VerifiedPlanSha256(c.hash, c.plan).value, now);
    PreparedAt(c.hash, VerifiedPlanSha256(c.hash, c.plan).value, c.analyzed.sqlFileSha256, now);
    var r1 := r0.(file := EventLine(r0.prepared));
    var r2 := r1.(synced := |r1.file|, stage := Calling(Connecting));
    var w0 := World(db, map[], map[], []);
    var w1, w2, w3 := With(w0, 0, r0), With(w0, 0, r1), With(w0, 0, r2);
    assert Whole(r0) == Whole(r1) == EventLine(r0.prepared);
    assert Whole(r0)[..|Whole(r0)|] == Whole(r0);
    assert Arriving(r0);
    assert Does(s, w0, Arrive(0), w1);
    assert With(w1, 0, r1) == w2;
    assert Does(s, w1, Write(0, |Whole(r0)|), w2);
    assert With(w2, 0, r2) == w3;
    assert Does(s, w2, Synced(0), w3);
    assert Initial(w0) && Follows(s, w0, w1) && Follows(s, w1, w2) && Follows(s, w2, w3);
    hide Does, Initial;
    assert History(s, [w0]);
    Extended(s, [w0], w1);
    Extended(s, [w0] + [w1], w2);
    Extended(s, [w0] + [w1] + [w2], w3);
    ws := [w0] + [w1] + [w2] + [w3];
  }

  lemma PreparedAt(hash: Hasher, seal: string, sql: string, now: U64)
    ensures PreparedFor(hash, seal, sql, now).timestampUnixMs == now
  {
    hide EventSha256, ReceiptId;
  }

  /** The same scene in a database with other tables beside. */
  function Beside(s: Server, x: Scene, db: Database): Scene {
    x.(env := s.env(x.identity, db))
  }

  lemma GoesThroughBeside(s: Server, c: Context, p: Planning, x: Scene, db: Database)
    requires Alone(s, c, p, x)
    ensures GoesThrough(c.analyzed.statement, Beside(s, x, db))
  {
    hide Performs, MadeBy, TotalOrder, Analyzed, Target;
    AloneIsMade(s, c, p, x);
    AnalyzedIsDerived(c.hash, p.grammar, p.blank, p.raw);
    var picked, images, after :| Performs(c.analyzed.statement, x.rel.rows, x.env, picked, images, Executed(after, x.affected));
    hide AnalyzeSql, AnalyzeStatement;
    PerformsSame(c.analyzed.statement, c.analyzed.details, x.rel.rows, x.env, s.env(x.identity, db), picked, images,
                 Executed(after, x.affected));
  }

  lemma AloneIsMade(s: Server, c: Context, p: Planning, x: Scene)
    requires Alone(s, c, p, x)
    ensures MadeBy(s, c.hash, p, c.plan) && AnalyzeSql(c.hash, p.grammar, p.blank, p.raw) == Ok(c.analyzed)
    ensures c == Context(c.hash, c.plan, Analyzed(c.hash, p), c.insecure)
    ensures Trusted(s) && TotalOrder(s.order) && GoesThrough(c.analyzed.statement, x) && Unacknowledged(c)
    ensures RequestedTransport(c.insecure) == c.plan.transportPolicy && CatalogOk(p.db) && x.server == s
  {
    hide AnalyzeSql, PlanChecks, GoesThrough, Trusted, TotalOrder, Target, CatalogOk, Sees;
  }

  lemma UnchangedBeside(s: Server, c: Context, p: Planning, x: Scene, db: Database)
    requires Alone(s, c, p, x) && AnalyzeSql(c.hash, p.grammar, p.blank, p.raw).Ok?
    ensures Unchanged(s, c.hash, p, Beside(s, x, db))
  {
    hide AnalyzeSql, GoesThrough, Trusted, TotalOrder, MadeBy;
    MadeAnalyzes(s, c.hash, p, c.plan);
  }

  /** In any database with the planned table and its name in place, the run gets to its execution. */
  lemma ReachesExecution(s: Server, c: Context, p: Planning, x: Scene, db: Database, o: Oid, now: U64)
    returns (ws: seq<World>, ph: Phase)
    requires Alone(s, c, p, x) && Staged(c, Beside(s, x, db), db, o)
    ensures History(s, ws) && Along(c, Beside(s, x, db), db, o, ws[|ws| - 1], ph)
    ensures ph.Executing? && ph.count == x.affected
  {
    hide *;
    var there := Beside(s, x, db);
    AloneIsMade(s, c, p, x);
    assert there.server == s && there.affected == x.affected && CatalogOk(db) by { BesideIs(s, c, x, db, o); }
    AloneIsAdmitted(s, c, p, x);
    UnchangedBeside(s, c, p, x, db);
    GoesThroughBeside(s, c, p, x, db);
    NoAcknowledgement(c);
    UnchangedCommits(s, c.hash, p, c.plan, c.insecure, there);
    AffectedAsPlanned(s, c.hash, p, c.plan, there);
    ws := Begun(c, there, db, o, now);
    StartsConnecting(c);
    ws, ph := GoesOn(c, there, db, o, ws, Connecting);
  }

  lemma BesideIs(s: Server, c: Context, x: Scene, db: Database, o: Oid)
    requires Staged(c, Beside(s, x, db), db, o)
    ensures Beside(s, x, db).server == x.server && Beside(s, x, db).affected == x.affected && CatalogOk(db)
  {
    hide CatalogOk, TableNamed, Resolve;
  }

  lemma NoAcknowledgement(c: Context)
    ensures Unacknowledged(c) <==> !c.plan.allowTriggers && !c.plan.allowRowSecurity
  {
  }

  lemma StartsConnecting(c: Context)
    requires RequestedTransport(c.insecure) == c.plan.transportPolicy
    ensures Start(c) == Connecting && Sound(c, Connecting)
  {
  }

  lemma AtOwnStatement(c: Context, x: Scene, db: Database, o: Oid, w: World, ph: Phase)
    requires Along(c, x, db, o, w, ph) && ph.Executing? && ph.count == x.affected && Staged(c, x, db, o)
    ensures AtStatement(c, x, w, o)
  {
    hide CatalogOk, TableNamed, Resolve;
  }

  /** For every plan there is a history in which the run that applies it publishes its change. */
  lemma CommitIsReachable(s: Server, c: Context, p: Planning, x: Scene, now: U64) returns (ws: seq<World>, o: Oid)
    requires Alone(s, c, p, x)
    ensures History(s, ws)
    ensures PublishedIn(c, ws[|ws| - 1], o, x.rel)
  {
    hide *;
    o := PlannedIsStaged(s, c, p, x);
    AloneBesideItself(s, c, p, x, o);
    var ph;
    ws, ph := ReachesExecution(s, c, p, x, p.db, o, now);
    NotEmpty(s, ws);
    AtOwnStatement(c, x, p.db, o, ws[|ws| - 1], ph);
    AloneIsMade(s, c, p, x);
    AlongIn(c, x, p.db, o, ws[|ws| - 1], ph);
    ws := Finishes(c, x, ws, o);
  }

  lemma AloneBesideItself(s: Server, c: Context, p: Planning, x: Scene, o: Oid)
    requires Alone(s, c, p, x) && Staged(c, x, p.db, o)
    ensures Beside(s, x, p.db) == x && o in p.db.tables && p.db.tables[o] == x.rel
  {
    hide AnalyzeSql, PlanChecks, GoesThrough, Trusted, TotalOrder, Target, CatalogOk, Sees, MadeBy, TableNamed, Resolve;
  }

  lemma AlongIn(c: Context, x: Scene, db: Database, o: Oid, w: World, ph: Phase)
    requires Along(c, x, db, o, w, ph)
    ensures w.db == db
  {
  }
}

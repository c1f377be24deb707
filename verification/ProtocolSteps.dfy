/** Every step keeps the invariant, so every reachable world satisfies it. */
module ProtocolSteps {
  import opened Wrappers
  import opened Integrity
  import opened Model
  import opened Receipt
  import opened Journal
  import opened Fingerprint
  import opened Db
  import opened Sql
  import opened SqlMeaning
  import opened Evidence
  import opened Engine
  import opened PlanCreation
  import opened Outcome
  import opened Apply
  import opened Protocol
  import opened ProtocolInvariant

  // ---------------------------------------------------------------- one call of one run

  /** A call that does not lead on ends the run or its transaction, without a commit. */
  lemma DeadEnd(s: Server, db: Database, run: Run, reply: Reply)
    requires RunInv(s, db, run) && run.stage.Calling? && !run.stage.phase.Ending?
    requires run.stage.phase.Committing? ==> reply.Broken?
    requires var q := Advance(run.c, run.stage.phase, reply); q.Ending? || q.RollingBack?
    ensures RunInv(s, db, Called(db, run, reply))
  {
    StillOpen(s, db, run);
    AdvanceSound(run.c, run.stage.phase, reply);
    NotYetCommitted(run.c, run.stage.phase, reply);
    BrokenCommit(run.c, run.stage.phase, reply);
    CalledKeepsEffect(db, run, reply);
    hide Advance, Sound, RunInv;
    Dead(s, db, Called(db, run, reply));
  }

  lemma StillOpen(s: Server, db: Database, run: Run)
    requires RunInv(s, db, run) && run.stage.Calling? && !run.stage.phase.Ending?
    ensures run.effect.None? && Sound(run.c, run.stage.phase)
  {
    hide Sound, EffectOk, Frozen, Validated, Counted, Matched, ReadyToCommit, Truthful;
  }

  lemma Dead(s: Server, db: Database, run: Run)
    requires run.stage.Calling? && run.txn == CLOSED && run.effect.None? && Sound(run.c, run.stage.phase)
    requires run.stage.phase.RollingBack? || (run.stage.phase.Ending? && Truthful(run.stage.phase.state, None))
    ensures RunInv(s, db, run)
  {
    hide Sound, EffectOk;
  }

  lemma BrokenCommit(c: Context, p: Phase, r: Reply)
    requires !p.Ending? && (p.Committing? ==> r.Broken?)
    ensures Advance(c, p, r).Ending? ==> Advance(c, p, r).state.IsFinal() && Advance(c, p, r).state != Committed
  {
    hide TableSchemaSha256, TablePolicyError, CanonicalTable, TargetSetOutcome;
  }

  /** A call that leads on: what the next phase relies on has been established. */
  lemma LeadsOn(s: Server, db: Database, run: Run, reply: Reply)
    requires RunInv(s, db, run) && run.stage.Calling? && !run.stage.phase.Ending? && !run.stage.phase.Committing?
    requires var next := Called(db, run, reply);
      && !next.stage.phase.Ending? && !next.stage.phase.RollingBack? && !next.stage.phase.Committing?
      && PhaseInv(s, db, next, next.stage.phase)
    ensures RunInv(s, db, Called(db, run, reply))
  {
    hide Advance, PhaseInv, EffectOk;
  }

  lemma OpeningCall(s: Server, db: Database, run: Run, reply: Reply)
    requires RunInv(s, db, run) && run.stage.Calling? && Answers(s, db, run, run.stage.phase, reply)
    requires run.stage.phase.Connecting? || run.stage.phase.Beginning? || run.stage.phase.SettingTimeouts?
    ensures RunInv(s, db, Called(db, run, reply))
  {
    if Called(db, run, reply).stage.phase.Ending? {
      DeadEnd(s, db, run, reply);
    } else {
      LeadsOn(s, db, run, reply);
    }
  }

  lemma LockingCall(s: Server, w: World, run: Run, reply: Reply)
    requires RunInv(s, w.db, run) && run.stage == Calling(Locking) && Answers(s, w.db, run, Locking, reply)
    requires CatalogOk(w.db)
    requires reply.Fine? ==> CanLock(w, run)
    ensures RunInv(s, w.db, Called(w.db, run, reply))
    ensures Called(w.db, run, reply).txn.lock.Some? ==> Free(w, Called(w.db, run, reply).txn.lock.value)
    ensures Called(w.db, run, reply).txn.delta.None?
  {
    hide Free;
    if reply.Fine? {
      LeadsOn(s, w.db, run, reply);
    } else {
      DeadEnd(s, w.db, run, reply);
    }
  }

  lemma IdentifyingCall(s: Server, db: Database, run: Run, reply: Reply)
    requires RunInv(s, db, run) && run.stage == Calling(Identifying) && Answers(s, db, run, Identifying, reply)
    requires CatalogOk(db)
    ensures RunInv(s, db, Called(db, run, reply))
  {
    if Called(db, run, reply).stage.phase.Ending? {
      DeadEnd(s, db, run, reply);
    } else {
      LeadsOn(s, db, run, reply);
    }
  }

  /** The evidence names the locked table: a rendered name stands for one table only. */
  lemma EvidenceIsLocked(s: Server, db: Database, run: Run, reply: Reply)
    requires RunInv(s, db, run) && run.stage.Calling? && run.stage.phase.Inspecting?
    requires SeenDefinition(s, db, run).Some? && reply == EvidenceIs(SeenDefinition(s, db, run).value)
    requires !Advance(run.c, run.stage.phase, reply).Ending?
    ensures Meant(s, db, run) == run.txn.lock
    ensures Validated(s, db, run)
  {
    hide TableSchemaSha256, CanonicalName, TableNamed, TablePolicyError, AfterCount, EffectOk, Resolve, Uncapturable;
    CanonicalRoundTrip(IdOf(reply.evidence));
    assert CanonicalTable(reply.evidence) == CanonicalName(IdOf(reply.evidence));
  }

  lemma AfterCountLeads(c: Context, d: DatabaseIdentity, h: string, n: nat)
    ensures var p := AfterCount(c, d, h, n); p.Ending? || p.Executing? || p.Fingerprinting?
    ensures AfterCount(c, d, h, n).Fingerprinting? ==> AfterCount(c, d, h, n).count == n && c.analyzed.details.targetRows.Some?
    ensures AfterCount(c, d, h, n).Executing? ==>
              AfterCount(c, d, h, n).count == n == c.plan.preconditions.targetCount && c.analyzed.details.targetRows.None?
  {
    hide TargetSetOutcome;
  }

  /** What a successful inspection leads to. */
  lemma InspectedPhase(c: Context, d: DatabaseIdentity, r: Reply)
    requires Derived(c) && !Advance(c, Inspecting(d), r).Ending?
    ensures r.EvidenceIs?
    ensures var q := Advance(c, Inspecting(d), r);
      || q.Counting?
      || (q.Executing? && q.count == c.plan.preconditions.targetCount == c.analyzed.details.insertedRows
          && c.analyzed.details.targetRows.None?)
  {
    CountWithTarget(c.analyzed.statement, c.analyzed.details);
    if r.EvidenceIs? {
      AfterCountLeads(c, d, TableSchemaSha256(c.hash, r.evidence), c.analyzed.details.insertedRows);
    }
    hide TableSchemaSha256, TablePolicyError, AfterCount, CanonicalTable;
  }

  /** A call after the snapshot leaves the transaction alone unless it ends it. */
  lemma SameTxn(db: Database, run: Run, reply: Reply)
    requires run.stage.Calling? && run.txn.snapshot.Some? && !run.stage.phase.Locking?
    requires var q := Advance(run.c, run.stage.phase, reply); !q.Ending? && !q.RollingBack?
    ensures Called(db, run, reply) == run.(stage := Calling(Advance(run.c, run.stage.phase, reply)))
  {
    hide Advance;
  }

  lemma AtInspecting(s: Server, db: Database, run: Run)
    requires RunInv(s, db, run) && run.stage.Calling? && run.stage.phase.Inspecting?
    ensures Frozen(db, run) && run.txn.snapshot.Some? && run.txn.delta.None?
  {
    hide EffectOk, Frozen, Sound;
  }

  lemma InspectingCall(s: Server, db: Database, run: Run, reply: Reply)
    requires Derived(run.c) && RunInv(s, db, run) && run.stage.Calling? && run.stage.phase.Inspecting?
    requires Answers(s, db, run, run.stage.phase, reply)
    ensures RunInv(s, db, Called(db, run, reply))
  {
    hide RunInv, Advance, Called, Sound, Derived, Validated, Frozen, Selected, AsPlanned;
    var q := Advance(run.c, run.stage.phase, reply);
    if q.Ending? {
      DeadEnd(s, db, run, reply);
    } else {
      StillOpen(s, db, run);
      AdvanceSound(run.c, run.stage.phase, reply);
      AtInspecting(s, db, run);
      InspectedPhase(run.c, run.stage.phase.identity, reply);
      EvidenceIsLocked(s, db, run, reply);
      SameTxn(db, run, reply);
      Restaged(s, db, run, Calling(q), 0);
      hide Answers;
      LeadsOn(s, db, run, reply);
    }
  }

  lemma PlainWhenGuarded(s: Server, db: Database, run: Run)
    requires Validated(s, db, run) && Guarded(s, run.c)
    ensures Plain(db.tables[run.txn.lock.value].evidence)
    ensures Seen(s, db, run) == Some(db.tables[run.txn.lock.value])
    ensures VisibleRows(run, run.txn.lock.value) == db.tables[run.txn.lock.value].rows
  {
    UnacknowledgedIsPlain(db.tables[run.txn.lock.value].evidence, run.c.analyzed.details.kind);
  }

  /** Selection in the world of the snapshot is selection at home: the WHERE clause sees nothing but the row. */
  lemma SelectionAtHome(s: Server, db: Database, run: Run, rows: seq<Row>)
    requires Trusted(s) && Derived(run.c) && run.c.analyzed.details.targetRows.Some?
    ensures Selected(rows, Where(run.c), TrueEnv(s, run)) == Selected(rows, Where(run.c), HomeEnv(s, run.identity))
  {
    DerivedFromStatement(run.c.analyzed.statement, run.c.analyzed.details);
    hide Selected, FirstUnsafe;
    SelectedSame(rows, Where(run.c), TrueEnv(s, run), HomeEnv(s, run.identity));
  }

  lemma AtCount(s: Server, db: Database, run: Run)
    requires RunInv(s, db, run) && run.stage.Calling? && run.stage.phase.Counting?
    ensures Validated(s, db, run) && run.txn.snapshot.Some?
  {
    hide EffectOk, Frozen, TablePolicyError, PlannedTable, Meant, Uncapturable;
  }

  /** The count of the locked table is the number of its selected rows. */
  lemma CountMatches(s: Server, db: Database, run: Run, reply: Reply)
    requires Trusted(s) && Derived(run.c) && run.stage.Calling? && run.stage.phase.Counting? && Validated(s, db, run)
    requires Answers(s, db, run, run.stage.phase, reply) && reply.CountIs? && reply.count >= 0
    ensures Counted(s, db, run, reply.count)
  {
    hide Selected, CountRows, TablePolicyError, PlannedTable, Derived;
    if Exact(s, run.c) {
      PlainWhenGuarded(s, db, run);
      var rows := db.tables[run.txn.lock.value].rows;
      assert Derived(run.c);
      DerivedCount(run.c);
      CountAgrees(rows, run.c.analyzed.details.count.value, TrueEnv(s, run));
      SelectionAtHome(s, db, run, rows);
    }
  }

  lemma DerivedCount(c: Context)
    requires Derived(c) && c.analyzed.details.targetRows.Some?
    ensures c.analyzed.details.count.Some? && c.analyzed.details.count.value.selection == Where(c)
  {
    DerivedFromStatement(c.analyzed.statement, c.analyzed.details);
  }

  lemma CountedPhase(c: Context, p: Phase, r: Reply)
    requires Derived(c) && p.Counting? && c.analyzed.details.count.Some? && !Advance(c, p, r).Ending?
    ensures r.CountIs? && r.count >= 0
    ensures var q := Advance(c, p, r); q.Fingerprinting? && q.count == r.count
  {
    CountWithTarget(c.analyzed.statement, c.analyzed.details);
    hide TargetSetOutcome;
  }

  lemma CountingCall(s: Server, db: Database, run: Run, reply: Reply)
    requires Trusted(s) && Derived(run.c) && RunInv(s, db, run) && run.stage.Calling? && run.stage.phase.Counting?
    requires Answers(s, db, run, run.stage.phase, reply)
    ensures RunInv(s, db, Called(db, run, reply))
  {
    hide RunInv, Advance, Called, Sound, Derived, Trusted, Validated, Matched, Counted;
    var q := Advance(run.c, run.stage.phase, reply);
    BrokenStops(run.c, run.stage.phase, reply);
    if q.Ending? || reply.Broken? {
      DeadEnd(s, db, run, reply);
    } else {
      assert run.c.analyzed.details.count.Some?;
      hide Answers;
      StillOpen(s, db, run);
      AdvanceSound(run.c, run.stage.phase, reply);
      AtCount(s, db, run);
      CountedPhase(run.c, run.stage.phase, reply);
      CountMatches(s, db, run, reply);
      AtExecution(s, db, run);
      SameTxn(db, run, reply);
      Restaged(s, db, run, Calling(q), q.count);
      LeadsOn(s, db, run, reply);
    }
  }

  /** A fingerprint that is accepted is the planned one. */
  lemma FingerprintedPhase(c: Context, p: Phase, r: Reply)
    requires p.Fingerprinting? && !Advance(c, p, r).Ending?
    ensures r.RowsAre? && !r.rows.broken
    ensures StreamOutcome(c.hash, r.rows, p.count) == Ok(c.plan.preconditions.targetSetSha256)
    ensures Advance(c, p, r).Executing? && Advance(c, p, r).count == p.count
  {
    hide FramedSize, Buffer, Sha256;
  }

  lemma AtFingerprint(s: Server, db: Database, run: Run)
    requires RunInv(s, db, run) && run.stage.Calling? && run.stage.phase.Fingerprinting?
    ensures Validated(s, db, run) && run.txn.snapshot.Some? && Counted(s, db, run, run.stage.phase.count)
    ensures run.stage.phase.count == run.c.plan.preconditions.targetCount
  {
    hide EffectOk, Frozen, Counted, TablePolicyError, PlannedTable, Meant, Uncapturable;
  }

  /** Accepted evidence of the locked table is that of its selected rows. */
  lemma EvidenceMatches(s: Server, db: Database, run: Run, reply: Reply)
    requires Trusted(s) && Derived(run.c) && run.stage.Calling? && run.stage.phase.Fingerprinting? && Validated(s, db, run)
    requires Counted(s, db, run, run.stage.phase.count)
    requires run.stage.phase.count == run.c.plan.preconditions.targetCount
    requires Answers(s, db, run, run.stage.phase, reply) && reply.RowsAre? && !reply.rows.broken
    requires StreamOutcome(run.c.hash, reply.rows, run.stage.phase.count) == Ok(run.c.plan.preconditions.targetSetSha256)
    ensures Matched(s, db, run, run.stage.phase.count)
  {
    hide Selected, StreamOutcome, TargetTexts, TablePolicyError, PlannedTable, Derived;
    if Exact(s, run.c) {
      PlainWhenGuarded(s, db, run);
      SelectionAtHome(s, db, run, db.tables[run.txn.lock.value].rows);
    }
  }

  /** What a transaction has established does not depend on the stage of its run. */
  lemma Restaged(s: Server, db: Database, run: Run, stage: Stage, n: nat)
    requires Validated(s, db, run)
    ensures Validated(s, db, run.(stage := stage))
    ensures Counted(s, db, run, n) ==> Counted(s, db, run.(stage := stage), n)
    ensures Matched(s, db, run, n) ==> Matched(s, db, run.(stage := stage), n)
  {
    hide Selected, AsPlanned, TablePolicyError, PlannedTable, Resolve, Uncapturable;
  }

  lemma FingerprintingCall(s: Server, db: Database, run: Run, reply: Reply)
    requires Trusted(s) && Derived(run.c) && RunInv(s, db, run) && run.stage.Calling? && run.stage.phase.Fingerprinting?
    requires Answers(s, db, run, run.stage.phase, reply)
    ensures RunInv(s, db, Called(db, run, reply))
  {
    hide RunInv, Advance, Called, Sound, Derived, Trusted, Validated, Matched, Counted, Answers, StreamOutcome;
    var q := Advance(run.c, run.stage.phase, reply);
    if q.Ending? {
      DeadEnd(s, db, run, reply);
    } else {
      StillOpen(s, db, run);
      AdvanceSound(run.c, run.stage.phase, reply);
      AtFingerprint(s, db, run);
      FingerprintedPhase(run.c, run.stage.phase, reply);
      EvidenceMatches(s, db, run, reply);
      AtExecution(s, db, run);
      SameTxn(db, run, reply);
      Restaged(s, db, run, Calling(q), q.count);
      LeadsOn(s, db, run, reply);
    }
  }

  lemma AtExecution(s: Server, db: Database, run: Run)
    requires RunInv(s, db, run) && run.stage.Calling? && !run.stage.phase.Committing?
    ensures run.txn.delta.None?
  {
    hide EffectOk, Frozen, Validated, Counted, Matched, Sound, Truthful;
  }

  lemma RollingBackCall(s: Server, db: Database, run: Run, reply: Reply)
    requires RunInv(s, db, run) && run.stage.Calling? && (run.stage.phase.RollingBack? || reply.Broken?)
    requires !run.stage.phase.Ending?
    ensures RunInv(s, db, Called(db, run, reply))
  {
    BrokenStops(run.c, run.stage.phase, reply);
    DeadEnd(s, db, run, reply);
  }

  lemma BrokenStops(c: Context, p: Phase, r: Reply)
    requires !p.Ending?
    ensures p.RollingBack? || r.Broken? ==> Advance(c, p, r).Ending? || Advance(c, p, r).RollingBack?
  {
  }

  lemma AnyCall(s: Server, w: World, run: Run, reply: Reply)
    requires Trusted(s) && Derived(run.c) && CatalogOk(w.db) && RunInv(s, w.db, run)
    requires run.stage.Calling? && !run.stage.phase.Ending?
    requires Answers(s, w.db, run, run.stage.phase, reply)
    requires run.stage.phase.Executing? || run.stage.phase.Committing? ==> reply.Broken?
    requires run.stage.phase.Locking? && reply.Fine? ==> CanLock(w, run)
    ensures RunInv(s, w.db, Called(w.db, run, reply))
  {
    hide RunInv, Answers, CanLock, Called;
    match run.stage.phase
    case Connecting => OpeningCall(s, w.db, run, reply);
    case Beginning => OpeningCall(s, w.db, run, reply);
    case SettingTimeouts => OpeningCall(s, w.db, run, reply);
    case Locking => LockingCall(s, w, run, reply);
    case Identifying => IdentifyingCall(s, w.db, run, reply);
    case Inspecting(_) => InspectingCall(s, w.db, run, reply);
    case Counting(_, _) => CountingCall(s, w.db, run, reply);
    case Fingerprinting(_, _, _) => FingerprintingCall(s, w.db, run, reply);
    case _ => RollingBackCall(s, w.db, run, reply);
  }

  /** What an execution on the locked table has made of the rows, seen from home. */
  lemma PerformsAtHome(s: Server, run: Run, rows: seq<Row>, picked: seq<Row>, images: seq<Row>, result: Executed)
    requires Trusted(s) && Derived(run.c) && run.c.analyzed.details.targetRows.Some?
    requires Performs(run.c.analyzed.statement, rows, TrueEnv(s, run), picked, images, result)
    ensures Selected(rows, Where(run.c), HomeEnv(s, run.identity)) == Some(picked)
    ensures ImagesOf(run.c.analyzed.statement, picked, images, HomeEnv(s, run.identity))
    ensures result.affected == |picked| && Exchanged(rows, picked, images, result.after)
  {
    var st := run.c.analyzed.statement;
    var env := TrueEnv(s, run);
    DerivedFromStatement(st, run.c.analyzed.details);
    hide Selected, FirstUnsafe, AssignedAll, ExecuteUpdate, ExecuteDelete, Exchanged;
    SelectedSame(rows, Where(run.c), env, HomeEnv(s, run.identity));
    if st.UpdateStatement? {
      AssignedAllSame(picked, st.assignments, env, HomeEnv(s, run.identity));
      UpdateAgrees(rows, st.assignments, Where(run.c), env);
    } else {
      DeleteAgrees(rows, Where(run.c), env);
    }
  }

  lemma PerformsInsert(c: Context, rows: seq<Row>, env: Env, picked: seq<Row>, images: seq<Row>, result: Executed)
    requires Derived(c) && c.analyzed.details.targetRows.None?
    requires Performs(c.analyzed.statement, rows, env, picked, images, result)
    ensures picked == [] && |images| == result.affected == c.analyzed.details.insertedRows
    ensures Exchanged(rows, picked, images, result.after)
  {
    InsertFromStatement(c.analyzed.statement, c.analyzed.details);
    hide AnalyzeStatement;
  }

  lemma AtExecuting(s: Server, db: Database, run: Run)
    requires RunInv(s, db, run) && run.stage.Calling? && run.stage.phase.Executing?
    ensures Validated(s, db, run) && Matched(s, db, run, run.stage.phase.count)
  {
    hide EffectOk, Frozen, Counted, TablePolicyError, PlannedTable, Meant, Uncapturable;
  }

  /** An execution under a guarded plan works on the locked table, changes what was planned, and matches the count. */
  lemma ExecutionMatches(s: Server, w: World, i: nat, affected: U64, delta: Delta)
    requires Trusted(s) && i in w.runs && Derived(w.runs[i].c) && RunInv(s, w.db, w.runs[i])
    requires Executes(s, w, i, affected, delta)
    ensures Validated(s, w.db, w.runs[i])
    ensures Uncapturable(s, w.runs[i].c) ==>
              Some(delta.table) == w.runs[i].txn.lock && delta.seen == w.db.tables[delta.table].rows
    ensures Guarded(s, w.runs[i].c) ==>
              && Changes(s, w.runs[i].c, delta.seen, delta.picked, delta.images, delta.after)
              && affected == w.runs[i].stage.phase.count
  {
    var run := w.runs[i];
    AtExecuting(s, w.db, run);
    hide RunInv, Selected, Performs, AsPlanned, ImagesOf, PlannedTable, TablePolicyError, StreamFor, Exchanged, Uncapturable;
    if Guarded(s, run.c) {
      PlainWhenGuarded(s, w.db, run);
      if Exact(s, run.c) {
        PerformsAtHome(s, run, delta.seen, delta.picked, delta.images, Executed(delta.after, affected));
      } else {
        PerformsInsert(run.c, delta.seen, TrueEnv(s, run), delta.picked, delta.images, Executed(delta.after, affected));
      }
    }
  }

  lemma ExecutedPhase(c: Context, p: Phase, affected: U64)
    requires p.Executing?
    ensures var q := Advance(c, p, AffectedAre(affected));
      (q.Committing? <==> affected == p.count) && (q.Committing? || q.RollingBack?)
  {
  }

  /** The lock, the snapshot and the validation outlive the execution. */
  lemma ExecutedTxn(s: Server, db: Database, run: Run, affected: U64, delta: Delta)
    requires Validated(s, db, run) && run.stage.Calling? && run.stage.phase.Executing?
    requires AfterExecute(run, affected, delta).stage.phase.Committing?
    ensures var next := AfterExecute(run, affected, delta);
      Validated(s, db, next) && next.txn.delta == Some(delta) && next.txn.lock == run.txn.lock
  {
    hide TablePolicyError, PlannedTable, Resolve, Advance, Uncapturable;
  }

  lemma ExecutingStep(s: Server, w: World, i: nat, affected: U64, delta: Delta)
    requires Trusted(s) && i in w.runs && Derived(w.runs[i].c) && RunInv(s, w.db, w.runs[i])
    requires Executes(s, w, i, affected, delta)
    ensures RunInv(s, w.db, AfterExecute(w.runs[i], affected, delta))
    ensures Guarded(s, w.runs[i].c) ==> AfterExecute(w.runs[i], affected, delta).stage.phase.Committing?
  {
    var run := w.runs[i];
    var next := AfterExecute(run, affected, delta);
    StillOpen(s, w.db, run);
    ExecutionMatches(s, w, i, affected, delta);
    AdvanceSound(run.c, run.stage.phase, AffectedAre(affected));
    ExecutedPhase(run.c, run.stage.phase, affected);
    if next.stage.phase.Committing? {
      ExecutedTxn(s, w.db, run, affected, delta);
      hide RunInv, Executes, Validated, Sound, Advance, Changes, Trusted, Derived, Guarded, Uncapturable;
      assert ReadyToCommit(s, w.db, next);
      Ready(s, w.db, next);
    } else {
      hide Advance, Executes, RunInv, Validated, Changes, Sound, Guarded;
      Dead(s, w.db, next);
    }
  }

  lemma Ready(s: Server, db: Database, run: Run)
    requires run.stage.Calling? && run.stage.phase.Committing? && ReadyToCommit(s, db, run) && run.effect.None?
    requires Sound(run.c, run.stage.phase)
    ensures RunInv(s, db, run)
  {
    hide Validated, Changes, Sound;
  }

  // ---------------------------------------------------------------- the commit

  /** Under the lock, the table is still the one that the statement saw, so the statement's result is published. */
  lemma PublishedRun(s: Server, w: World, run: Run, rows: seq<Row>, reply: Reply)
    requires CatalogOk(w.db) && RunInv(s, w.db, run) && run.stage.Calling? && run.stage.phase.Committing?
    requires (reply.Fine? || reply.Broken?) && run.txn.delta.Some? && run.txn.delta.value.table in w.db.tables
    requires multiset(rows) == NewRows(w.db.tables[run.txn.delta.value.table].rows, run.txn.delta.value)
    ensures var rel := w.db.tables[run.txn.delta.value.table]; forall db ::
      RunInv(s, db, Called(w.db, Published(run, rel, rows), reply))
  {
    StillReady(s, w.db, run);
    AdvanceSound(run.c, run.stage.phase, reply);
    var d := run.txn.delta.value;
    var rel := w.db.tables[d.table];
    if Guarded(s, run.c) {
      SameResult(s, run.c, d.seen, d.picked, d.images, d.after, rows);
    }
    assert EffectOk(s, run.c, EffectOf(d, rel, rows)) by { hide Changes, PlannedTable, Uncapturable; }
    var next := Called(w.db, Published(run, rel, rows), reply);
    AfterCommit(w.db, Published(run, rel, rows), reply);
    hide Called, EffectOk, Advance, Sound;
    forall db ensures RunInv(s, db, next) {
      RunCommitted(s, db, next);
    }
  }

  lemma SameResult(s: Server, c: Context, rows: seq<Row>, picked: seq<Row>, images: seq<Row>, a: seq<Row>, b: seq<Row>)
    requires Changes(s, c, rows, picked, images, a) && multiset(a) == multiset(b)
    ensures Changes(s, c, rows, picked, images, b)
  {
    hide Selected, ImagesOf, AsPlanned;
  }

  lemma StillReady(s: Server, db: Database, run: Run)
    requires RunInv(s, db, run) && run.stage.Calling? && run.stage.phase.Committing? && run.txn.delta.Some?
    requires CatalogOk(db) && run.txn.delta.value.table in db.tables
    ensures var d := run.txn.delta.value;
      && (Uncapturable(s, run.c) ==>
            && PlannedTable(run.c, db.tables[d.table].evidence) && db.tables[d.table].evidence.oid == d.table
            && d.seen == db.tables[d.table].rows)
      && (Guarded(s, run.c) ==> Changes(s, run.c, d.seen, d.picked, d.images, d.after))
    ensures Sound(run.c, run.stage.phase)
  {
    hide EffectOk, Changes, PlannedTable, TablePolicyError, Meant, Sound, Uncapturable;
  }

  lemma AfterCommit(db: Database, run: Run, reply: Reply)
    requires run.stage.Calling? && run.stage.phase.Committing? && (reply.Fine? || reply.Broken?)
    ensures var next := Called(db, run, reply);
      && next == run.(stage := Calling(Advance(run.c, run.stage.phase, reply)), txn := CLOSED)
      && next.stage.phase.Ending? && (next.stage.phase.state == Committed || next.stage.phase.state == Uncertain)
  {
  }

  lemma RunCommitted(s: Server, db: Database, run: Run)
    requires run.stage.Calling? && run.stage.phase.Ending? && run.txn == CLOSED && Sound(run.c, run.stage.phase)
    requires run.effect.Some? && EffectOk(s, run.c, run.effect.value)
    requires run.stage.phase.state == Committed || run.stage.phase.state == Uncertain
    ensures RunInv(s, db, run)
  {
    hide EffectOk, Sound;
  }

  // ---------------------------------------------------------------- the world

  /** A step of one run that takes no new lock and publishes nothing; what it executes on is locked by no other run. */
  lemma OneRun(s: Server, w: World, i: nat, run: Run)
    requires Inv(s, w) && i in w.runs
    requires RunInv(s, w.db, run) && run.c == w.runs[i].c && run.effect == w.runs[i].effect
    requires run.txn.lock.None? || run.txn.lock == w.runs[i].txn.lock
    requires run.txn.delta.Some? ==>
               run.txn.delta == w.runs[i].txn.delta
               || forall j | j in w.runs && j != i :: w.runs[j].txn.lock != Some(run.txn.delta.value.table)
    ensures Inv(s, With(w, i, run))
  {
    hide RunInv, Admitted, LastRows, LogChained, CatalogOk;
  }

  /** A step of one run that takes a free lock. */
  lemma OneLock(s: Server, w: World, i: nat, run: Run)
    requires Inv(s, w) && i in w.runs
    requires RunInv(s, w.db, run) && run.c == w.runs[i].c && run.effect == w.runs[i].effect
    requires run.txn.delta.None? && (run.txn.lock.Some? ==> Free(w, run.txn.lock.value))
    ensures Inv(s, With(w, i, run))
  {
    hide RunInv, Admitted, LastRows, LogChained, CatalogOk;
    forall j | j in w.runs && run.txn.lock.Some? ensures w.runs[j].txn.lock != run.txn.lock {
      assert !Locked(w, run.txn.lock.value);
    }
  }

  lemma ArrivedRun(s: Server, db: Database, run: Run)
    requires Arriving(run)
    ensures RunInv(s, db, run) && Admitted(run.c) && run.txn == CLOSED
  {
    hide EffectOk, Admitted, PreparedFor, PhaseInv, VerifiedPlanSha256;
  }

  lemma ArrivalKeeps(s: Server, w: World, i: nat, run: Run)
    requires Inv(s, w) && i !in w.runs && Arriving(run)
    ensures Inv(s, With(w, i, run))
  {
    hide Arriving, RunInv, Admitted, LastRows, LogChained, CatalogOk;
    ArrivedRun(s, w.db, run);
  }

  lemma LastRowsPush(log: seq<Entry>, e: Entry, o: Oid)
    ensures LastRows(log + [e], o)
         == if e.Applied? && e.effect.table == o then Some(e.effect.after)
            else if e.Foreign? && o in e.tables then None
            else LastRows(log, o)
  {
    assert (log + [e])[..|log|] == log;
  }

  lemma ChainPush(log: seq<Entry>, e: Entry)
    requires LogChained(log)
    requires e.Applied? && LastRows(log, e.effect.table).Some? ==> LastRows(log, e.effect.table).value == e.effect.before
    ensures LogChained(log + [e])
  {
    hide LastRows;
    var more := log + [e];
    forall k | 0 <= k < |more| && more[k].Applied? && LastRows(more[..k], more[k].effect.table).Some?
      ensures LastRows(more[..k], more[k].effect.table).value == more[k].effect.before
    {
      if k < |log| {
        assert more[..k] == log[..k];
      } else {
        assert more[..k] == log;
      }
    }
  }

  lemma StillUnpublished(s: Server, db: Database, run: Run)
    requires RunInv(s, db, run) && run.stage.Calling? && run.stage.phase.Committing?
    ensures run.effect.None?
  {
    hide EffectOk, ReadyToCommit, Sound, Truthful;
  }

  lemma CommittedIsClosed(db: Database, run: Run, rel: Relation, rows: seq<Row>, reply: Reply)
    requires run.stage.Calling? && run.stage.phase.Committing? && run.txn.delta.Some?
    ensures Called(db, Published(run, rel, rows), reply).txn == CLOSED
    ensures Called(db, Published(run, rel, rows), reply).c == run.c
  {
  }

  lemma CommitCatalog(db: Database, o: Oid, rows: seq<Row>, db': Database)
    requires CatalogOk(db) && o in db.tables && db' == db.(tables := db.tables[o := db.tables[o].(rows := rows)])
    ensures CatalogOk(db')
  {
  }

  lemma CommitRuns(s: Server, w: World, i: nat, rows: seq<Row>, next: Run, w': World)
    requires Inv(s, w) && i in w.runs
    requires w.runs[i].txn.delta.Some? && w.runs[i].txn.delta.value.table in w.db.tables
    requires var o := w.runs[i].txn.delta.value.table;
      w'.db == w.db.(tables := w.db.tables[o := w.db.tables[o].(rows := rows)])
    requires w'.runs == w.runs[i := next] && next.c == w.runs[i].c && RunInv(s, w'.db, next)
    ensures CatalogOk(w'.db)
    ensures forall j | j in w'.runs :: Admitted(w'.runs[j].c)
    ensures forall j | j in w'.runs :: RunInv(s, w'.db, w'.runs[j])
  {
    hide RunInv, Admitted, LogInv, CatalogOk;
    CommitCatalog(w.db, w.runs[i].txn.delta.value.table, rows, w'.db);
    forall j | j in w'.runs ensures Admitted(w'.runs[j].c) {
      assert Admitted(w.runs[j].c);
    }
    forall j | j in w'.runs ensures RunInv(s, w'.db, w'.runs[j]) {
      if j != i {
        assert RunInv(s, w.db, w.runs[j]);
        RunFrame(s, w.db, w'.db, w.runs[j]);
      }
    }
  }

  lemma CommitLog(w: World, i: nat, next: Run, w': World)
    requires LogInv(w) && i in w.runs && w.runs[i].effect.None? && next.effect.Some?
    requires next.effect.value.table in w.db.tables && next.effect.value.before == w.db.tables[next.effect.value.table].rows
    requires var e := next.effect.value;
      && w'.db == w.db.(tables := w.db.tables[e.table := w.db.tables[e.table].(rows := e.after)])
      && w'.log == w.log + [Applied(i, e)]
    requires w'.runs == w.runs[i := next]
    ensures LogInv(w')
  {
    hide LastRows, LogChained, CatalogOk;
    var e := next.effect.value;
    ChainPush(w.log, Applied(i, e));
    forall o | LastRows(w'.log, o).Some? ensures o in w'.db.tables && w'.db.tables[o].rows == LastRows(w'.log, o).value {
      LastRowsPush(w.log, Applied(i, e), o);
    }
    forall k | 0 <= k < |w'.log| && w'.log[k].Applied?
      ensures w'.log[k].run in w'.runs && w'.runs[w'.log[k].run].effect == Some(w'.log[k].effect)
    {
      if k < |w.log| {
        assert w'.log[k] == w.log[k];
        assert w.log[k].run != i;
      }
    }
  }

  /** After a commit: the others never held this lock, and the log continues from what was there. */
  lemma CommitKeeps(s: Server, w: World, i: nat, rows: seq<Row>, reply: Reply, w': World)
    requires Inv(s, w) && i in w.runs && Publishes(w, i, rows, reply, w')
    ensures Inv(s, w')
  {
    hide RunInv, Admitted, LogInv, EffectOk, CatalogOk, Called, LocksApart, NewRows;
    var run := w.runs[i];
    var rel := w.db.tables[run.txn.delta.value.table];
    var next := Called(w.db, Published(run, rel, rows), reply);
    assert RunInv(s, w.db, run);
    StillUnpublished(s, w.db, run);
    PublishedRun(s, w, run, rows, reply);
    CommittedIsClosed(w.db, run, rel, rows, reply);
    CalledKeepsEffect(w.db, Published(run, rel, rows), reply);
    CommitRuns(s, w, i, rows, next, w');
    CommitLog(w, i, next, w');
    CommitLocks(w, i, next, w');
  }

  lemma CalledKeepsEffect(db: Database, run: Run, reply: Reply)
    requires run.stage.Calling?
    ensures Called(db, run, reply).effect == run.effect
  {
  }

  lemma CommitLocks(w: World, i: nat, next: Run, w': World)
    requires LocksApart(w) && i in w.runs && next.txn == CLOSED && w'.runs == w.runs[i := next] && w'.foreign == w.foreign
    ensures LocksApart(w')
  {
  }

  /** Foreign commits: what a run has locked is out of their reach. */
  lemma ForeignKeeps(s: Server, w: World, x: nat, db: Database, w': World)
    requires Inv(s, w) && ForeignPublishes(w, x, db, w')
    ensures Inv(s, w')
  {
    hide RunInv, Admitted, LastRows, LogChained, CatalogOk;
    forall i | i in w.runs ensures RunInv(s, db, w.runs[i]) {
      var run := w.runs[i];
      if run.txn.lock.Some? {
        assert Locked(w, run.txn.lock.value);
        assert run.txn.lock.value !in w.foreign[x];
      }
      RunFrame(s, w.db, db, run);
    }
    ForeignLog(w, x, db, w');
  }

  lemma ForeignLog(w: World, x: nat, db: Database, w': World)
    requires LogInv(w) && ForeignPublishes(w, x, db, w')
    ensures LogInv(w')
  {
    hide LastRows, LogChained, CatalogOk;
    ChainPush(w.log, Foreign(w.foreign[x]));
    forall o | LastRows(w'.log, o).Some? ensures o in db.tables && db.tables[o].rows == LastRows(w'.log, o).value {
      LastRowsPush(w.log, Foreign(w.foreign[x]), o);
    }
    forall k | 0 <= k < |w'.log| && w'.log[k].Applied?
      ensures w'.log[k].run in w'.runs && w'.runs[w'.log[k].run].effect == Some(w'.log[k].effect)
    {
      assert w'.log[k] == w.log[k];
    }
  }

  lemma ForeignLockKeeps(s: Server, w: World, x: nat, o: Oid)
    requires Inv(s, w) && !Locked(w, o)
    ensures Inv(s, w.(foreign := w.foreign[x := (if x in w.foreign then w.foreign[x] else {}) + {o}]))
  {
    hide RunInv, Admitted, LastRows, LogChained, CatalogOk;
  }

  lemma ForeignAbortKeeps(s: Server, w: World, x: nat)
    requires Inv(s, w)
    ensures Inv(s, w.(foreign := w.foreign - {x}))
  {
    hide RunInv, Admitted, LastRows, LogChained, CatalogOk;
  }

  /** The steps of a run that touch only its file or its stage. */
  lemma FileStep(s: Server, db: Database, run: Run, file: string, synced: nat, terminal: Option<ReceiptEvent>)
    requires RunInv(s, db, run)
    ensures var r := run.(file := file, synced := synced, terminal := terminal);
      && RunInv(s, db, r)
      && RunInv(s, db, r.(stage := Stopped, txn := CLOSED))
      && (run.txn == CLOSED ==> RunInv(s, db, r.(stage := Appending)))
      && (run.stage.Preparing? ==> RunInv(s, db, r.(stage := Calling(Start(run.c)))))
  {
    hide EffectOk, AsPlanned, Selected, ImagesOf, TablePolicyError;
  }

  lemma CallKeeps(s: Server, w: World, i: nat, reply: Reply)
    requires Trusted(s) && Inv(s, w) && i in w.runs && Calls(s, w, w.runs[i], reply)
    ensures Inv(s, With(w, i, Called(w.db, w.runs[i], reply)))
  {
    hide RunInv, Answers, Advance, Admitted, LogInv, LocksApart, Free, CatalogOk, CanLock, Derived;
    var run := w.runs[i];
    assert RunInv(s, w.db, run) && Admitted(run.c);
    AdmittedIsDerived(run.c);
    var next := Called(w.db, run, reply);
    AnyCall(s, w, run, reply);
    hide Inv, TxnAfter, With;
    if run.stage.phase.Locking? {
      LockingCall(s, w, run, reply);
      OneLock(s, w, i, next);
    } else {
      CalledKeepsLock(w.db, run, reply);
      CalledKeepsDelta(w.db, run, reply);
      OneRun(s, w, i, next);
    }
  }

  lemma CalledKeepsLock(db: Database, run: Run, reply: Reply)
    requires run.stage.Calling? && !run.stage.phase.Locking?
    ensures Called(db, run, reply).txn.lock.None? || Called(db, run, reply).txn.lock == run.txn.lock
  {
    hide Advance;
  }

  lemma CalledKeepsDelta(db: Database, run: Run, reply: Reply)
    requires run.stage.Calling?
    ensures Called(db, run, reply).txn.delta.Some? ==> Called(db, run, reply).txn.delta == run.txn.delta
  {
    hide Advance;
  }

  lemma ExecuteKeeps(s: Server, w: World, i: nat, affected: U64, delta: Delta)
    requires Trusted(s) && Inv(s, w) && i in w.runs && Executes(s, w, i, affected, delta)
    ensures Inv(s, With(w, i, AfterExecute(w.runs[i], affected, delta)))
  {
    hide RunInv, Admitted, LogInv, LocksApart, CatalogOk, Derived, Advance;
    var run := w.runs[i];
    assert RunInv(s, w.db, run) && Admitted(run.c);
    AdmittedIsDerived(run.c);
    ExecutingStep(s, w, i, affected, delta);
    hide Inv, With;
    OneRun(s, w, i, AfterExecute(run, affected, delta));
  }

  lemma AdmittedIsDerived(c: Context)
    requires Admitted(c)
    ensures Derived(c)
  {
    hide VerifiedPlanSha256, LimitsError, BindingError, Derived;
  }

  /** The steps on the file of a run, which the database does not see. */
  lemma FileKeepsRun(s: Server, db: Database, run: Run, a: Action, next: Run)
    requires RunInv(s, db, run) && FileDoes(run, a, next)
    ensures RunInv(s, db, next)
    ensures next.c == run.c && next.effect == run.effect
    ensures next.txn == run.txn || next.txn == CLOSED
  {
    if run.stage.Appending? || run.stage.Preparing? || (run.stage.Calling? && run.stage.phase.Ending?) {
      EndsAreClosed(s, db, run);
    }
    hide RunInv, Start, FinalEvent, EventLine, Whole;
    FileStep(s, db, run, next.file, next.synced, next.terminal);
  }

  lemma FileKeeps(s: Server, w: World, a: Action, i: nat, next: Run)
    requires Inv(s, w) && i in w.runs && FileDoes(w.runs[i], a, next)
    ensures Inv(s, With(w, i, next))
  {
    hide RunInv, FileDoes;
    assert RunInv(s, w.db, w.runs[i]);
    FileKeepsRun(s, w.db, w.runs[i], a, next);
    hide Inv;
    OneRun(s, w, i, next);
  }

  lemma EndsAreClosed(s: Server, db: Database, run: Run)
    requires RunInv(s, db, run)
    requires run.stage.Appending? || run.stage.Preparing? || (run.stage.Calling? && run.stage.phase.Ending?)
    ensures run.txn == CLOSED
  {
    hide EffectOk, Sound;
  }

  /** Every step keeps the invariant. */
  lemma StepKeeps(s: Server, w: World, a: Action, w': World)
    requires Trusted(s) && Inv(s, w) && Does(s, w, a, w')
    ensures Inv(s, w')
  {
    hide Inv, Calls, Executes, Publishes, ForeignPublishes, Arriving, Called, AfterExecute, Locked, FileDoes;
    match a
    case Arrive(i) => ArrivalKeeps(s, w, i, w'.runs[i]);
    case Call(i, reply) => CallKeeps(s, w, i, reply);
    case Execute(i, affected, delta) => ExecuteKeeps(s, w, i, affected, delta);
    case Commit(i, rows, reply) => CommitKeeps(s, w, i, rows, reply, w');
    case ForeignLock(x, o) => ForeignLockKeeps(s, w, x, o);
    case ForeignCommit(x, db) => ForeignKeeps(s, w, x, db, w');
    case ForeignAbort(x) => ForeignAbortKeeps(s, w, x);
    case _ => FileKeeps(s, w, a, a.i, w'.runs[a.i]);
  }

  /** Every world of every history satisfies the invariant. */
  lemma {:induction false} HistoryInv(s: Server, ws: seq<World>, k: nat)
    requires Trusted(s) && History(s, ws) && k < |ws|
    ensures Inv(s, ws[k])
  {
    hide Inv, Does, Initial;
    if k == 0 {
      InitialInv(s, ws[0]);
    } else {
      HistoryInv(s, ws, k - 1);
      assert Follows(s, ws[k - 1], ws[k - 1 + 1]);
      var a :| Does(s, ws[k - 1], a, ws[k]);
      StepKeeps(s, ws[k - 1], a, ws[k]);
    }
  }
}

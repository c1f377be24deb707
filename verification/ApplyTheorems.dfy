/** What a published change is, in every history of runs, foreign sessions, failures and crashes. */
module ApplyTheorems {
  import opened Wrappers
  import opened Json
  import opened Integrity
  import opened Model
  import opened Receipt
  import opened Fingerprint
  import opened Db
  import opened Sql
  import opened SqlMeaning
  import opened Evidence
  import opened Engine
  import opened PlanCreation
  import opened Outcome
  import opened Apply
  import opened Protocol
  import opened ProtocolInvariant
  import opened ProtocolSteps
  import opened Planning

  // ---------------------------------------------------------------- rows and columns

  function Columns(e: TableEvidence): set<string> {
    set c | c in e.columns :: c.name
  }

  /** Every row has the columns of the table's definition. */
  predicate Conforms(e: TableEvidence, rows: seq<Row>) {
    HasColumns(Columns(e), rows)
  }

  lemma {:induction false} SelectedAreRows(rows: seq<Row>, selection: Expr, env: Env)
    requires Selected(rows, selection, env).Some?
    ensures forall r | r in Selected(rows, selection, env).value :: r in rows
  {
    hide Test;
    if rows != [] {
      SelectedAreRows(rows[1..], selection, env);
      assert rows == [rows[0]] + rows[1..];
    }
  }

  lemma SelectedConform(e: TableEvidence, rows: seq<Row>, selection: Expr, env: Env)
    requires Conforms(e, rows) && Selected(rows, selection, env).Some?
    ensures Conforms(e, Selected(rows, selection, env).value)
  {
    hide Selected, Columns;
    SelectedAreRows(rows, selection, env);
    var picked := Selected(rows, selection, env).value;
    forall i | 0 <= i < |picked| ensures picked[i].Keys == Columns(e) {
      assert picked[i] in picked;
    }
  }

  lemma {:induction false} FittingTexts(texts: seq<string>)
    requires FramedSize(texts) <= MAX_TARGET_EVIDENCE_BYTES
    ensures TextsFit(texts)
  {
    if texts != [] {
      FittingTexts(texts[1..]);
      forall i | 0 <= i < |texts| ensures |texts[i]| <= MAX_TEXT {
        assert i > 0 ==> texts[i] == texts[1..][i - 1];
      }
    }
  }

  /** Two accepted fingerprints with one digest are of the same texts, or their buffers collide. */
  lemma SameFingerprint(hash: Hasher, x: Stream, y: Stream, m: nat, n: nat)
    requires StreamOutcome(hash, x, m).Ok? && StreamOutcome(hash, y, n) == StreamOutcome(hash, x, m)
    ensures x.texts == y.texts || Collision(hash, Buffer(x.texts), Buffer(y.texts))
  {
    FittingTexts(x.texts);
    FittingTexts(y.texts);
    hide Sha256, Buffer, FramedSize;
    FingerprintBinds(hash, x.texts, y.texts);
  }

  // ---------------------------------------------------------------- one effect

  lemma EffectHolds(s: Server, ws: seq<World>, k: nat, i: nat)
    requires Trusted(s) && History(s, ws) && k < |ws| && i in ws[k].runs && ws[k].runs[i].effect.Some?
    ensures EffectOk(s, ws[k].runs[i].c, ws[k].runs[i].effect.value)
    ensures Admitted(ws[k].runs[i].c)
  {
    hide EffectOk, Admitted, History, Trusted, LogInv, LocksApart, CatalogOk, PhaseInv, Truthful;
    HistoryInv(s, ws, k);
    assert RunInv(s, ws[k].db, ws[k].runs[i]);
  }

  /**
   Budget: whatever the interleaving, a published change of a guarded plan takes or adds exactly the planned
   number of rows, and never more than the budget or one million.
   */
  lemma EffectWithinBudget(s: Server, ws: seq<World>, k: nat, i: nat)
    requires Trusted(s) && History(s, ws) && k < |ws| && i in ws[k].runs && ws[k].runs[i].effect.Some?
    requires Guarded(s, ws[k].runs[i].c)
    ensures var c, e := ws[k].runs[i].c, ws[k].runs[i].effect.value;
      && (if Exact(s, c) then |e.picked| == c.plan.preconditions.targetCount && |e.images| <= |e.picked|
          else e.picked == [] && |e.images| == c.plan.preconditions.targetCount)
      && c.plan.preconditions.targetCount <= c.plan.limits.maxRows <= 1_000_000
  {
    hide History, Trusted, Selected, AsPlanned, PlannedTable, Exchanged, Uncapturable, Admitted;
    EffectHolds(s, ws, k, i);
    var c, e := ws[k].runs[i].c, ws[k].runs[i].effect.value;
    AdmittedBinds(c);
    if Exact(s, c) && c.analyzed.statement.UpdateStatement? {
      ImagesSize(e.picked, c.analyzed.statement.assignments, HomeEnv(s, c.plan.preconditions.database));
    }
  }

  lemma {:induction false} ImagesSize(rows: seq<Row>, assignments: seq<Assignment>, env: Env)
    requires AssignedAll(rows, assignments, env).Some?
    ensures |AssignedAll(rows, assignments, env).value| == |rows|
  {
    hide Assigned;
    if rows != [] {
      ImagesSize(rows[1..], assignments, env);
    }
  }

  /** A stream of the selected rows is as long as the count. */
  lemma EvidenceIsCounted(s: Server, db: Database, run: Run, reply: Reply)
    requires Trusted(s) && Derived(run.c) && Guarded(s, run.c) && RunInv(s, db, run)
    requires run.stage.Calling? && run.stage.phase.Fingerprinting?
    requires Answers(s, db, run, run.stage.phase, reply) && reply.RowsAre? && !reply.rows.broken
    ensures |reply.rows.texts| == run.stage.phase.count
  {
    hide RunInv, Selected, TargetTexts, TablePolicyError, PlannedTable, Derived, Trusted, Uncapturable;
    AtFingerprint(s, db, run);
    PlainWhenGuarded(s, db, run);
    SelectionAtHome(s, db, run, db.tables[run.txn.lock.value].rows);
  }

  lemma RunHolds(s: Server, ws: seq<World>, k: nat, i: nat)
    requires Trusted(s) && History(s, ws) && k < |ws| && i in ws[k].runs
    ensures RunInv(s, ws[k].db, ws[k].runs[i]) && Derived(ws[k].runs[i].c)
  {
    hide History, Trusted, LogInv, LocksApart, CatalogOk, RunInv, Admitted, Derived;
    HistoryInv(s, ws, k);
    assert Admitted(ws[k].runs[i].c);
    AdmittedIsDerived(ws[k].runs[i].c);
  }

  /**
   The count mismatch of the evidence query cannot occur: in every reachable world, under a guarded plan, the
   query yields as many rows as the count query counted.
   */
  lemma EvidenceMismatchUnreachable(s: Server, ws: seq<World>, k: nat, i: nat, rows: Stream)
    requires Trusted(s) && History(s, ws) && k < |ws| && i in ws[k].runs && Guarded(s, ws[k].runs[i].c)
    requires ws[k].runs[i].stage.Calling? && ws[k].runs[i].stage.phase.Fingerprinting?
    requires Answers(s, ws[k].db, ws[k].runs[i], ws[k].runs[i].stage.phase, RowsAre(rows))
    ensures StreamOutcome(ws[k].runs[i].c.hash, rows, ws[k].runs[i].stage.phase.count)
         != EvidenceError("target_evidence_count_mismatch", Contract)
  {
    hide History, Trusted, RunInv, Answers, Derived, FramedSize, Buffer, Sha256, Guarded;
    RunHolds(s, ws, k, i);
    if !rows.broken {
      EvidenceIsCounted(s, ws[k].db, ws[k].runs[i], RowsAre(rows));
    }
  }

  /** Nor can the mismatch of the affected rows: a statement that goes through leads to the commit. */
  lemma AffectedMismatchUnreachable(s: Server, ws: seq<World>, k: nat, i: nat, affected: U64, delta: Delta)
    requires Trusted(s) && History(s, ws) && k < |ws| && i in ws[k].runs && Guarded(s, ws[k].runs[i].c)
    requires Executes(s, ws[k], i, affected, delta)
    ensures AfterExecute(ws[k].runs[i], affected, delta).stage.phase.Committing?
  {
    hide *;
    RunHolds(s, ws, k, i);
    ExecutingStep(s, ws[k], i, affected, delta);
  }

  /**
   Lock coverage: the table that a published change went to is the very table that the statement meant when
   the plan was made, with the same definition, unless the definitions collide.
   */
  lemma EffectTable(s: Server, ws: seq<World>, k: nat, i: nat, p: Planning)
    requires Trusted(s) && History(s, ws) && k < |ws| && i in ws[k].runs && ws[k].runs[i].effect.Some?
    requires MadeBy(s, ws[k].runs[i].c.hash, p, ws[k].runs[i].c.plan) && Uncapturable(s, ws[k].runs[i].c)
    ensures var c, e := ws[k].runs[i].c, ws[k].runs[i].effect.value; var a := Analyzed(c.hash, p);
      || (Resolve(s.path(p.identity), p.db, a.details.table) == Some(e.table)
          && Target(s, p, a).value.evidence == e.evidence)
      || SameDigest(c.hash, Target(s, p, a).value.evidence, e.evidence)
  {
    hide *;
    EffectHolds(s, ws, k, i);
    PlannedDefinition(s, ws[k].runs[i].c, p, ws[k].runs[i].effect.value);
  }

  /** A change of a table with the planned schema hash is one of the planned table. */
  lemma PlannedDefinition(s: Server, c: Context, p: Planning, e: Effect)
    requires MadeBy(s, c.hash, p, c.plan) && Uncapturable(s, c) && EffectOk(s, c, e)
    ensures var a := Analyzed(c.hash, p);
      || (Resolve(s.path(p.identity), p.db, a.details.table) == Some(e.table)
          && Target(s, p, a).value.evidence == e.evidence)
      || SameDigest(c.hash, Target(s, p, a).value.evidence, e.evidence)
  {
    hide AnalyzeSql, PlanChecks, Changes, TableSchemaSha256, TableNamed, EvidenceJson, Print, Uncapturable;
    hide CanonicalTable, TablePolicyError, TargetSet, Plain;
    PlanRecords(s, c.hash, p, c.plan);
    SchemaBinding(c.hash, Target(s, p, Analyzed(c.hash, p)).value.evidence, e.evidence);
  }

  /** Two table definitions whose texts collide. */
  ghost predicate SameDigest(hash: Hasher, a: TableEvidence, b: TableEvidence) {
    Collision(hash, Print(EvidenceJson(a), Compact), Print(EvidenceJson(b), Compact))
  }

  /** The SQL file at apply is the file at plan time, so its analysis is the same. */
  lemma SameFile(s: Server, c: Context, g: Grammar, blank: string -> bool, raw: string, p: Planning)
    requires BindingError(c.plan, c.analyzed).None? && MadeBy(s, c.hash, p, c.plan)
    requires g == p.grammar && blank == p.blank && AnalyzeSql(c.hash, g, blank, raw) == Ok(c.analyzed)
    ensures c.analyzed == Analyzed(c.hash, p) || Collision(c.hash, raw, p.raw)
  {
    PlanRecords(s, c.hash, p, c.plan);
    AnalyzedIsDerived(c.hash, g, blank, raw);
    AnalyzedIsDerived(c.hash, g, blank, p.raw);
    hide AnalyzeSql, PlanChecks, Sha256, AnalyzeStatement;
    DigestBinds(c.hash, raw, p.raw);
  }

  /** The target query's answer as bytes under the fingerprint. */
  function EvidenceBytes(s: Server, c: Context, picked: seq<Row>): string
    requires c.analyzed.details.targetRows.Some?
  {
    Buffer(StreamFor(s, c.plan.preconditions.database, c.analyzed.details.targetRows.value, picked).texts)
  }

  /** In the planned session, the text of a row of this table determines the row. */
  ghost predicate FaithfulFor(s: Server, c: Context, e: TableEvidence)
    requires c.analyzed.details.targetRows.Some?
  {
    Faithful(c.analyzed.details.targetRows.value.rowReference, Columns(e), s.rendering(c.plan.preconditions.database))
  }

  /** Rows with accepted evidence are the rows that were planned. */
  lemma PlannedRowsAgain(s: Server, c: Context, p: Planning, before: seq<Row>, picked: seq<Row>, e: TableEvidence)
    requires Trusted(s) && MadeBy(s, c.hash, p, c.plan) && Exact(s, c) && c.analyzed == Analyzed(c.hash, p)
    requires AsPlanned(s, c, picked)
    requires Selected(before, Where(c), HomeEnv(s, c.plan.preconditions.database)) == Some(picked)
    requires Target(s, p, c.analyzed).value.evidence == e && FaithfulFor(s, c, e)
    requires Conforms(e, Target(s, p, c.analyzed).value.rows) && Conforms(e, before)
    ensures PlannedRows(s, c.hash, p).Some?
    ensures || multiset(picked) == multiset(PlannedRows(s, c.hash, p).value)
            || Collision(c.hash, EvidenceBytes(s, c, PlannedRows(s, c.hash, p).value), EvidenceBytes(s, c, picked))
  {
    PlanFingerprint(s, c.hash, p, c.plan);
    PlanRecords(s, c.hash, p, c.plan);
    hide AnalyzeSql, PlanChecks, Selected, StreamOutcome, TargetTexts, Buffer, Columns, Collision, MadeBy, Trusted;
    hide Faithful, TextDetermines;
    var planned := PlannedRows(s, c.hash, p).value;
    var q, d := c.analyzed.details.targetRows.value, c.plan.preconditions.database;
    SameFingerprint(c.hash, StreamFor(s, d, q, planned), StreamFor(s, d, q, picked), c.plan.preconditions.targetCount,
                    c.plan.preconditions.targetCount);
    SelectedConform(e, Target(s, p, c.analyzed).value.rows, Where(c), HomeEnv(s, d));
    SelectedConform(e, before, Where(c), HomeEnv(s, d));
    FaithfulDetermines(q.rowReference, Columns(e), s.rendering(d));
    if TargetTexts(s.order, q.rowReference, planned, s.rendering(d))
       == TargetTexts(s.order, q.rowReference, picked, s.rendering(d)) {
      EvidenceBindsRows(s.order, q.rowReference, Columns(e), planned, picked, s.rendering(d));
    }
  }

  /** What AppliedAsPlanned says of one effect. */
  ghost predicate ExactlyPlanned(s: Server, c: Context, p: Planning, e: Effect)
    requires AnalyzeSql(c.hash, p.grammar, p.blank, p.raw).Ok?
  {
    var a := Analyzed(c.hash, p);
    && Resolve(s.path(p.identity), p.db, a.details.table) == Some(e.table)
    && PlannedRows(s, c.hash, p).Some?
    && multiset(e.picked) == multiset(PlannedRows(s, c.hash, p).value)
    && ImagesOf(a.statement, e.picked, e.images, HomeEnv(s, p.identity))
    && Exchanged(e.before, e.picked, e.images, e.after)
  }

  lemma EffectParts(s: Server, c: Context, e: Effect)
    requires Exact(s, c) && EffectOk(s, c, e)
    ensures Exchanged(e.before, e.picked, e.images, e.after) && AsPlanned(s, c, e.picked)
    ensures Selected(e.before, Where(c), HomeEnv(s, c.plan.preconditions.database)) == Some(e.picked)
    ensures ImagesOf(c.analyzed.statement, e.picked, e.images, HomeEnv(s, c.plan.preconditions.database))
  {
    hide Uncapturable, Exchanged, AsPlanned, Selected, ImagesOf, PlannedTable;
  }

  lemma PlannedEffect(s: Server, c: Context, raw: string, p: Planning, e: Effect)
    requires Trusted(s) && Exact(s, c) && BindingError(c.plan, c.analyzed).None? && EffectOk(s, c, e)
    requires MadeBy(s, c.hash, p, c.plan) && AnalyzeSql(c.hash, p.grammar, p.blank, raw) == Ok(c.analyzed)
    requires Target(s, p, Analyzed(c.hash, p)).Some?
    requires var rel := Target(s, p, Analyzed(c.hash, p)).value;
      FaithfulFor(s, c, rel.evidence) && Conforms(rel.evidence, rel.rows) && Conforms(e.evidence, e.before)
    ensures || Collision(c.hash, raw, p.raw)
            || SameDigest(c.hash, Target(s, p, Analyzed(c.hash, p)).value.evidence, e.evidence)
            || (PlannedRows(s, c.hash, p).Some?
                && Collision(c.hash, EvidenceBytes(s, c, PlannedRows(s, c.hash, p).value), EvidenceBytes(s, c, e.picked)))
            || ExactlyPlanned(s, c, p, e)
  {
    hide AnalyzeSql, PlanChecks, Selected, AsPlanned, ImagesOf, Exchanged, Conforms, Resolve, Sees, Target, EffectOk;
    hide Uncapturable, SameDigest, EvidenceBytes, PlannedRows, Collision, FaithfulFor, BindingError, MadeBy, Trusted;
    MadeAnalyzes(s, c.hash, p, c.plan);
    EffectParts(s, c, e);
    PlannedDefinition(s, c, p, e);
    SameFile(s, c, p.grammar, p.blank, raw, p);
    PlanRecords(s, c.hash, p, c.plan);
    if c.analyzed == Analyzed(c.hash, p) && Target(s, p, c.analyzed).value.evidence == e.evidence {
      PlannedRowsAgain(s, c, p, e.before, e.picked, e.evidence);
    }
  }

  lemma MadeAnalyzes(s: Server, hash: Hasher, p: Planning, plan: Plan)
    requires MadeBy(s, hash, p, plan)
    ensures AnalyzeSql(hash, p.grammar, p.blank, p.raw).Ok? && Target(s, p, Analyzed(hash, p)).Some?
  {
    hide AnalyzeSql, PlanChecks, Target;
  }

  lemma AdmittedBinds(c: Context)
    requires Admitted(c)
    ensures BindingError(c.plan, c.analyzed).None? && LimitsError(c.plan.limits).None?
  {
    hide VerifiedPlanSha256, BindingError, LimitsError, Derived;
  }

  /**
   The protocol theorem.  In every history, if the change of a guarded UPDATE or DELETE plan is published, then
   it is one of the table that the statement meant when the plan was made; the rows it takes out are, as a
   multiset, the rows that the statement selected then; it puts in their images under the assignments (none
   for a DELETE); and every other row that the table had at the commit stays: or a collision is exhibited, of
   the two files, the two table definitions or the two evidence buffers.
   */
  lemma AppliedAsPlanned(s: Server, ws: seq<World>, k: nat, i: nat, raw: string, p: Planning)
    requires Trusted(s) && History(s, ws) && k < |ws| && i in ws[k].runs && ws[k].runs[i].effect.Some?
    requires var c := ws[k].runs[i].c;
      && Exact(s, c) && MadeBy(s, c.hash, p, c.plan)
      && AnalyzeSql(c.hash, p.grammar, p.blank, raw) == Ok(c.analyzed)
    requires var c, e := ws[k].runs[i].c, ws[k].runs[i].effect.value; var rel := Target(s, p, Analyzed(c.hash, p)).value;
      FaithfulFor(s, c, rel.evidence) && Conforms(rel.evidence, rel.rows) && Conforms(e.evidence, e.before)
    ensures var c, e := ws[k].runs[i].c, ws[k].runs[i].effect.value;
      || Collision(c.hash, raw, p.raw)
      || SameDigest(c.hash, Target(s, p, Analyzed(c.hash, p)).value.evidence, e.evidence)
      || (PlannedRows(s, c.hash, p).Some?
          && Collision(c.hash, EvidenceBytes(s, c, PlannedRows(s, c.hash, p).value), EvidenceBytes(s, c, e.picked)))
      || ExactlyPlanned(s, c, p, e)
  {
    hide *;
    var c, e := ws[k].runs[i].c, ws[k].runs[i].effect.value;
    MadeAnalyzes(s, c.hash, p, c.plan);
    IsExact(s, c);
    EffectHolds(s, ws, k, i);
    AdmittedBinds(c);
    PlannedEffect(s, c, raw, p, e);
  }

  lemma IsExact(s: Server, c: Context)
    requires Exact(s, c)
    ensures c.analyzed.details.targetRows.Some? && Guarded(s, c) && Uncapturable(s, c) && Unacknowledged(c)
  {
    hide Uncapturable;
  }
}

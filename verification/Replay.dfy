/** Applying one plan again, in sequence or in a race: the table stays as the first commit left it. */
module Replay {
  import opened Wrappers
  import opened Integrity
  import opened Model
  import opened Fingerprint
  import opened Sql
  import opened SqlMeaning
  import opened Evidence
  import opened Engine
  import opened Db
  import opened Protocol
  import opened ProtocolInvariant
  import opened ProtocolSteps
  import opened ApplyTheorems

  /** Two runs of one plan and one SQL file. */
  ghost predicate SamePlan(a: Context, b: Context) {
    a.hash == b.hash && a.plan == b.plan && a.analyzed == b.analyzed
  }

  /** Runs of one plan had one SQL file, or two files collide. */
  lemma OneFileForOnePlan(a: Context, b: Context, g: Grammar, blank: string -> bool, x: string, y: string)
    requires a.hash == b.hash && a.plan == b.plan
    requires BindingError(a.plan, a.analyzed).None? && BindingError(b.plan, b.analyzed).None?
    requires AnalyzeSql(a.hash, g, blank, x) == Ok(a.analyzed) && AnalyzeSql(a.hash, g, blank, y) == Ok(b.analyzed)
    ensures SamePlan(a, b) || Collision(a.hash, x, y)
  {
    hide Sha256, AnalyzeStatement, CountText, TargetText;
    DigestBinds(a.hash, x, y);
  }

  ghost predicate FaithfulEffect(s: Server, c: Context, e: Effect)
    requires c.analyzed.details.targetRows.Some?
  {
    FaithfulFor(s, c, e.evidence) && Conforms(e.evidence, e.before)
  }

  /** The evidence of two effects collides: that of the rows, or that of the table definitions. */
  ghost predicate EvidenceCollides(s: Server, c: Context, e: Effect, f: Effect)
    requires c.analyzed.details.targetRows.Some?
  {
    || Collision(c.hash, EvidenceBytes(s, c, e.picked), EvidenceBytes(s, c, f.picked))
    || SameDigest(c.hash, e.evidence, f.evidence)
  }

  lemma SameDefinition(s: Server, c: Context, e: Effect, f: Effect)
    requires Uncapturable(s, c) && EffectOk(s, c, e) && EffectOk(s, c, f)
    ensures e.evidence == f.evidence || SameDigest(c.hash, e.evidence, f.evidence)
  {
    hide Changes, TableSchemaSha256, TableNamed, Uncapturable;
    SchemaBinding(c.hash, e.evidence, f.evidence);
  }

  /** Two effects of one plan took out the same rows. */
  lemma SamePicked(s: Server, c: Context, e: Effect, f: Effect)
    requires Exact(s, c) && EffectOk(s, c, e) && EffectOk(s, c, f) && FaithfulEffect(s, c, e) && FaithfulEffect(s, c, f)
    ensures multiset(e.picked) == multiset(f.picked) || EvidenceCollides(s, c, e, f)
  {
    hide Uncapturable, Selected, StreamOutcome, TargetTexts, Buffer, Columns, Collision, ImagesOf, Exchanged, PlannedTable;
    hide Faithful, SameDigest, TextDetermines;
    SameDefinition(s, c, e, f);
    PlannedInScope(s, c, e.picked);
    if e.evidence == f.evidence {
      var q, d := c.analyzed.details.targetRows.value, c.plan.preconditions.database;
      var n := c.plan.preconditions.targetCount;
      SameFingerprint(c.hash, StreamFor(s, d, q, e.picked), StreamFor(s, d, q, f.picked), n, n);
      SelectedConform(e.evidence, e.before, Where(c), HomeEnv(s, d));
      SelectedConform(f.evidence, f.before, Where(c), HomeEnv(s, d));
      FaithfulDetermines(q.rowReference, Columns(e.evidence), s.rendering(d));
      if TargetTexts(s.order, q.rowReference, e.picked, s.rendering(d))
         == TargetTexts(s.order, q.rowReference, f.picked, s.rendering(d)) {
        EvidenceBindsRows(s.order, q.rowReference, Columns(e.evidence), e.picked, f.picked, s.rendering(d));
      }
    }
  }

  lemma SameImages(c: Context, a: seq<Row>, x: seq<Row>, b: seq<Row>, y: seq<Row>, env: Env)
    requires multiset(a) == multiset(b)
    requires ImagesOf(c.analyzed.statement, a, x, env) && ImagesOf(c.analyzed.statement, b, y, env)
    ensures multiset(x) == multiset(y)
  {
    hide Assigned, AssignedAll;
    if c.analyzed.statement.UpdateStatement? {
      ImagesPermute(a, b, c.analyzed.statement.assignments, env);
    }
  }

  lemma FewImages(c: Context, picked: seq<Row>, images: seq<Row>, env: Env)
    requires ImagesOf(c.analyzed.statement, picked, images, env)
    ensures |images| <= |picked|
  {
    hide AssignedAll;
    if c.analyzed.statement.UpdateStatement? {
      ImagesSize(picked, c.analyzed.statement.assignments, env);
    }
  }

  /** A second commit right after the first one: both changed nothing in the table as a multiset of rows. */
  lemma SecondChangesNothing(s: Server, c: Context, e: Effect, f: Effect)
    requires Exact(s, c) && EffectOk(s, c, e) && EffectOk(s, c, f) && FaithfulEffect(s, c, e) && FaithfulEffect(s, c, f)
    requires f.before == e.after
    ensures || (multiset(f.after) == multiset(e.after) && multiset(e.after) == multiset(e.before))
            || EvidenceCollides(s, c, e, f)
  {
    var env := HomeEnv(s, c.plan.preconditions.database);
    SamePicked(s, c, e, f);
    hide Selected, AsPlanned, ImagesOf, FaithfulEffect, PlannedTable, EvidenceCollides, Uncapturable;
    if multiset(e.picked) == multiset(f.picked) {
      FewImages(c, e.picked, e.images, env);
      ReselectionMeansNoChange(e.before, e.picked, e.images, e.after, f.picked, Where(c), env);
      SameImages(c, e.picked, e.images, f.picked, f.images, env);
    }
  }

  predicate Touches(entry: Entry, o: Oid) {
    match entry
    case Applied(_, e) => e.table == o
    case Foreign(tables) => o in tables
  }

  /** From position `m` on, only runs of this plan have changed the table of the commit at `m`. */
  ghost predicate OnlyThisPlan(s: Server, w: World, m: nat, c: Context)
    requires c.analyzed.details.targetRows.Some?
  {
    && m < |w.log| && w.log[m].Applied?
    && forall j | m <= j < |w.log| && Touches(w.log[j], w.log[m].effect.table) ::
         && w.log[j].Applied? && w.log[j].run in w.runs && SamePlan(w.runs[w.log[j].run].c, c)
         && FaithfulEffect(s, c, w.log[j].effect)
  }

  /** Two of the commits from `m` on show a collision of their evidence. */
  ghost predicate Collided(s: Server, w: World, m: nat, n: nat, c: Context)
    requires c.analyzed.details.targetRows.Some?
  {
    exists a, b | m <= a < b < n && b < |w.log| && w.log[a].Applied? && w.log[b].Applied? ::
      EvidenceCollides(s, c, w.log[a].effect, w.log[b].effect)
  }

  lemma LoggedEffect(s: Server, w: World, j: nat, c: Context)
    requires Inv(s, w) && j < |w.log| && w.log[j].Applied? && w.log[j].run in w.runs && SamePlan(w.runs[w.log[j].run].c, c)
    ensures EffectOk(s, c, w.log[j].effect)
  {
    hide EffectOk, Admitted, LocksApart, CatalogOk, LogChained, LastRows;
    var run := w.runs[w.log[j].run];
    assert RunInv(s, w.db, run) && run.effect == Some(w.log[j].effect);
    SamePlanSameEffect(s, run.c, c, w.log[j].effect);
  }

  lemma SamePlanSameEffect(s: Server, a: Context, b: Context, e: Effect)
    requires EffectOk(s, a, e) && SamePlan(a, b)
    ensures EffectOk(s, b, e)
  {
    hide Selected, ImagesOf, Exchanged, StreamOutcome, StreamFor, TableSchemaSha256, TableNamed;
  }

  lemma {:induction false} LastCommit(s: Server, w: World, m: nat, n: nat, c: Context) returns (p: nat)
    requires Inv(s, w) && Exact(s, c) && OnlyThisPlan(s, w, m, c) && m < n <= |w.log|
    ensures m <= p < n && w.log[p].Applied? && w.log[p].effect.table == w.log[m].effect.table
    ensures LastRows(w.log[..n], w.log[m].effect.table) == Some(w.log[p].effect.after)
    ensures multiset(w.log[p].effect.after) == multiset(w.log[m].effect.after) || Collided(s, w, m, n, c)
    decreases n
  {
    hide EffectOk, RunInv, Admitted, LocksApart, CatalogOk, LastRows, FaithfulEffect, SamePlan, Exact, EvidenceCollides;
    var id, j := w.log[m].effect.table, n - 1;
    assert w.log[..n] == w.log[..j] + [w.log[j]];
    LastRowsPush(w.log[..j], w.log[j], id);
    if j == m {
      p := m;
    } else {
      p := LastCommit(s, w, m, j, c);
      if Touches(w.log[j], id) {
        assert w.log[j].effect.before == w.log[p].effect.after;
        LoggedEffect(s, w, p, c);
        LoggedEffect(s, w, j, c);
        SecondChangesNothing(s, c, w.log[p].effect, w.log[j].effect);
        p := j;
      }
    }
  }

  /**
   Replay safety.  As long as no foreign session changes the table after a commit of an UPDATE or DELETE plan,
   any number of further commits of that plan, in sequence or racing, leave the table with the rows that
   the first commit left, or the evidence of two of the commits collides.
   */
  lemma ReplaySafety(s: Server, ws: seq<World>, k: nat, m: nat, c: Context)
    requires Trusted(s) && History(s, ws) && k < |ws| && Exact(s, c) && OnlyThisPlan(s, ws[k], m, c)
    ensures var w := ws[k]; var id := w.log[m].effect.table;
      && id in w.db.tables
      && (multiset(w.db.tables[id].rows) == multiset(w.log[m].effect.after) || Collided(s, w, m, |w.log|, c))
  {
    hide *;
    HistoryInv(s, ws, k);
    AtThisCommit(s, ws[k], m, c);
    var w := ws[k];
    var p := LastCommit(s, w, m, |w.log|, c);
    assert w.log[..|w.log|] == w.log;
    TableIsLast(s, w, w.log[m].effect.table);
  }

  lemma AtThisCommit(s: Server, w: World, m: nat, c: Context)
    requires Exact(s, c) && OnlyThisPlan(s, w, m, c)
    ensures m < |w.log| && w.log[m].Applied?
  {
    hide SamePlan, FaithfulEffect;
  }

  /** A table is as the last commit in the log left it. */
  lemma TableIsLast(s: Server, w: World, o: Oid)
    requires Inv(s, w) && LastRows(w.log, o).Some?
    ensures o in w.db.tables && w.db.tables[o].rows == LastRows(w.log, o).value
  {
    hide RunInv, Admitted, LocksApart, CatalogOk, LogChained, LastRows;
  }
}

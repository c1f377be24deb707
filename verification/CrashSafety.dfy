/** What the receipt file of a run says after a failure or a crash at any step, whatever the others do. */
module CrashSafety {
  import opened Wrappers
  import opened Integrity
  import opened Model
  import opened Receipt
  import opened ReceiptProofs
  import opened SqlMeaning
  import opened Engine
  import opened Protocol
  import opened ProtocolInvariant
  import opened ProtocolSteps

  /** The whole prepared line is on the disk and survives a crash. */
  predicate PreparedDurable(run: Run) {
    EventLine(run.prepared) <= run.file && |EventLine(run.prepared)| <= run.synced
  }

  /**
   The file is a prefix of the lines written so far.  The prepared line is durable before anything else can
   happen, and a terminal line never contradicts the effect.
   */
  ghost predicate FileInv(run: Run) {
    && run.synced <= |run.file| && run.file <= Whole(run)
    && (run.stage.Preparing? ==> run.terminal.None? && run.effect.None?)
    && (run.stage.Calling? ==> run.terminal.None? && PreparedDurable(run))
    && (run.stage.Appending? ==> run.terminal.Some?)
    && (run.effect.Some? || run.terminal.Some? ==> PreparedDurable(run))
    && (run.terminal.Some? ==> Truthful(run.terminal.value.state, run.effect))
  }

  lemma WholeStarts(run: Run)
    ensures EventLine(run.prepared) <= Whole(run)
    ensures run.terminal.None? ==> Whole(run) == EventLine(run.prepared)
  {
    hide EventLine;
  }

  /** A run's own steps on its file. */
  lemma FileStepKeeps(run: Run, a: Action, next: Run)
    requires FileInv(run) && FileDoes(run, a, next)
    requires run.stage.Calling? && run.stage.phase.Ending? ==> Truthful(run.stage.phase.state, run.effect)
    ensures FileInv(next)
  {
    hide EventLine, EventSha256, Start;
    WholeStarts(run);
    WholeStarts(next);
    match a
    case Write(_, n) =>
      assert run.file <= next.file;
    case Crash(_, kept) =>
      assert next.file <= run.file;
    case _ =>
  }

  /** The calls of a run leave its file alone; a commit finds the prepared line durable. */
  lemma CallingKeeps(run: Run, next: Run)
    requires FileInv(run) && run.stage.Calling? && next.stage.Calling?
    requires next == run.(stage := next.stage, txn := next.txn, effect := next.effect)
    ensures FileInv(next)
  {
    hide EventLine;
    assert Whole(next) == Whole(run);
  }

  ghost predicate FilesInv(w: World) {
    forall i | i in w.runs :: FileInv(w.runs[i])
  }

  lemma ArrivedFile(run: Run)
    requires Arriving(run)
    ensures FileInv(run)
  {
    hide EventLine, Admitted;
    WholeStarts(run);
  }

  lemma OneFile(w: World, i: nat, run: Run, w': World)
    requires FilesInv(w) && FileInv(run) && w'.runs == w.runs[i := run]
    ensures FilesInv(w')
  {
    hide FileInv;
  }

  lemma CalledForm(db: Database, run: Run, reply: Reply)
    requires run.stage.Calling?
    ensures var next := Called(db, run, reply);
      next.stage.Calling? && next == run.(stage := next.stage, txn := next.txn)
  {
    hide Advance;
  }

  lemma EndingIsTruthful(s: Server, w: World, i: nat)
    requires Inv(s, w) && i in w.runs && w.runs[i].stage.Calling? && w.runs[i].stage.phase.Ending?
    ensures Truthful(w.runs[i].stage.phase.state, w.runs[i].effect)
  {
    assert RunInv(s, w.db, w.runs[i]);
    hide EffectOk, PhaseInv, Truthful;
  }

  lemma CommitFile(w: World, i: nat, rows: seq<Row>, reply: Reply, w': World)
    requires FilesInv(w) && i in w.runs && Publishes(w, i, rows, reply, w')
    ensures FilesInv(w')
  {
    hide FileInv, Called;
    var run := w.runs[i];
    var published := Published(run, w.db.tables[run.txn.delta.value.table], rows);
    var next := Called(w.db, published, reply);
    CalledForm(w.db, published, reply);
    CallingKeeps(run, next);
    OneFile(w, i, next, w');
  }

  /** Every step of every participant keeps every receipt file in order. */
  lemma StepKeepsFiles(s: Server, w: World, a: Action, w': World)
    requires Inv(s, w) && FilesInv(w) && Does(s, w, a, w')
    ensures FilesInv(w')
  {
    hide Inv, FileInv, Publishes, ForeignPublishes, Arriving, Executes, Calls, Called, FileDoes, Locked;
    match a
    case Arrive(i) =>
      ArrivedFile(w'.runs[i]);
    case Call(i, reply) =>
      assert w.runs[i].stage.Calling? by { IsCalling(s, w, i, reply); }
      CalledForm(w.db, w.runs[i], reply);
      CallingKeeps(w.runs[i], w'.runs[i]);
    case Execute(i, affected, delta) =>
      ExecutedForm(s, w, i, affected, delta);
      CallingKeeps(w.runs[i], w'.runs[i]);
    case Commit(i, rows, reply) =>
      CommitFile(w, i, rows, reply, w');
    case ForeignLock(x, id) =>
    case ForeignCommit(x, db) =>
      assert w'.runs == w.runs by { ForeignLeavesRuns(w, x, db, w'); }
    case ForeignAbort(x) =>
    case _ =>
      if w.runs[a.i].stage.Calling? && w.runs[a.i].stage.phase.Ending? {
        EndingIsTruthful(s, w, a.i);
      }
      FileStepKeeps(w.runs[a.i], a, w'.runs[a.i]);
  }

  lemma IsCalling(s: Server, w: World, i: nat, reply: Reply)
    requires i in w.runs && Calls(s, w, w.runs[i], reply)
    ensures w.runs[i].stage.Calling?
  {
    hide Answers, CanLock;
  }

  lemma ExecutedForm(s: Server, w: World, i: nat, affected: U64, delta: Delta)
    requires i in w.runs && Executes(s, w, i, affected, delta)
    ensures w.runs[i].stage.Calling?
    ensures var next := AfterExecute(w.runs[i], affected, delta);
      next.stage.Calling? && next == w.runs[i].(stage := next.stage, txn := next.txn)
  {
    hide Performs, Meant, VisibleRows, Advance;
  }

  lemma ForeignLeavesRuns(w: World, x: nat, db: Database, w': World)
    requires ForeignPublishes(w, x, db, w')
    ensures w'.runs == w.runs
  {
    hide CatalogOk, Locked;
  }

  lemma {:induction false} HistoryFiles(s: Server, ws: seq<World>, k: nat)
    requires Trusted(s) && History(s, ws) && k < |ws|
    ensures FilesInv(ws[k])
  {
    hide Inv, Does, FileInv, CatalogOk;
    if k > 0 {
      HistoryFiles(s, ws, k - 1);
      HistoryInv(s, ws, k - 1);
      hide Initial;
      assert Follows(s, ws[k - 1], ws[k - 1 + 1]);
      var a :| Does(s, ws[k - 1], a, ws[k]);
      StepKeepsFiles(s, ws[k - 1], a, ws[k]);
    }
  }

  /** A verdict on a prefix of one line is not complete, on a prefix of two it is about those two. */
  lemma VerdictOfFile(hash: Hasher, run: Run)
    requires FileInv(run) && VerifyReceipt(hash, run.file).Ok? && VerifyReceipt(hash, run.file).value.complete
    ensures run.terminal.Some? && VerifyReceipt(hash, run.file).value.finalState == run.terminal.value.state
  {
    hide VerifyReceipt, EventText, VerifyEvents, Truthful;
    var e := run.prepared;
    var f := if run.terminal.Some? then run.terminal.value else e;
    EventTextReads(e);
    assert run.file <= EventLine(e) + EventLine(f);
    WrittenTorn(hash, e, f, run.file);
    TwoVerdict(hash, e, f);
  }

  /**
   At every moment of every history, so after a crash at any step: a table effect finds the prepared event
   durable; and a file that verifies as complete tells the truth, committed only if the change was published,
   refused or rolled back only if it was not.
   */
  lemma CrashSafety(s: Server, ws: seq<World>, k: nat, i: nat)
    requires Trusted(s) && History(s, ws) && k < |ws| && i in ws[k].runs
    ensures var run := ws[k].runs[i];
      && (run.effect.Some? ==> PreparedDurable(run))
      && var v := VerifyReceipt(run.c.hash, run.file);
         (v.Ok? && v.value.complete ==>
            && (v.value.finalState == Committed ==> run.effect.Some?)
            && (v.value.finalState == Refused || v.value.finalState == RolledBack ==> run.effect.None?))
  {
    hide VerifyReceipt, PreparedDurable, History, Trusted, Whole;
    HistoryFiles(s, ws, k);
    var run := ws[k].runs[i];
    assert FileInv(run);
    if VerifyReceipt(run.c.hash, run.file).Ok? && VerifyReceipt(run.c.hash, run.file).value.complete {
      VerdictOfFile(run.c.hash, run);
    }
  }
}

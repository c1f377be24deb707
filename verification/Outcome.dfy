/** What the end of a run says, and what a commit attempt presupposes (src/engine.rs:220-497). */
module Outcome {
  import opened Wrappers
  import opened Json
  import opened Utf8
  import opened Codec
  import opened Integrity
  import opened Model
  import opened Receipt
  import opened Journal
  import opened Fingerprint
  import opened Db
  import opened Sql
  import opened Engine

  // ---------------------------------------------------------------- what the end of a run says

  predicate Attempted(trace: seq<Phase>) {
    exists i | 0 <= i < |trace| :: trace[i].Committing?
  }

  predicate CommitState(s: ReceiptState) {
    s == Committed || s == Uncertain
  }

  /** A run that has not reached its commit ends in a commit state exactly when it attempts one. */
  lemma {:induction false} AttemptDecidesState(c: Context, p: Phase, replies: seq<Reply>)
    requires p.Ending? ==> !CommitState(p.state)
    ensures CommitState(End(c, p, replies).state) <==> Attempted(Trace(c, p, replies))
    ensures End(c, p, replies).state.IsFinal() || p.Ending?
    decreases Rank(p)
  {
    hide Advance, End, Trace, Next, Rest;
    if p.Ending? {
      AlreadyEnded(c, p, replies);
    } else {
      var q := Advance(c, p, Next(replies));
      AdvanceRanks(c, p, Next(replies));
      EndStep(c, p, replies);
      NotYetCommitted(c, p, Next(replies));
      if p.Committing? {
        assert Trace(c, p, replies)[0].Committing?;
        LastCalls(c, p, Next(replies));
        AlreadyEnded(c, q, Rest(replies));
      } else {
        AttemptDecidesState(c, q, Rest(replies));
        if q.Ending? {
          AlreadyEnded(c, q, Rest(replies));
        }
        ShiftAttempt(p, Trace(c, q, Rest(replies)));
      }
    }
  }

  lemma AlreadyEnded(c: Context, p: Phase, replies: seq<Reply>)
    requires p.Ending?
    ensures End(c, p, replies) == p && Trace(c, p, replies) == []
  {
  }

  /** A commit and a rollback are the last calls. */
  lemma LastCalls(c: Context, p: Phase, r: Reply)
    ensures p.Committing? ==> Advance(c, p, r).Ending?
    ensures p.RollingBack? ==> Advance(c, p, r) == Ending(RolledBack, p.result)
  {
  }

  lemma ShiftAttempt(p: Phase, rest: seq<Phase>)
    requires !p.Committing?
    ensures Attempted([p] + rest) <==> Attempted(rest)
  {
    if Attempted(rest) {
      var i :| 0 <= i < |rest| && rest[i].Committing?;
      assert ([p] + rest)[i + 1].Committing?;
    }
  }

  lemma NotYetCommitted(c: Context, p: Phase, r: Reply)
    requires !p.Ending?
    ensures Advance(c, p, r).Ending? ==> (CommitState(Advance(c, p, r).state) <==> p.Committing?)
    ensures Advance(c, p, r).Ending? ==> Advance(c, p, r).state.IsFinal()
  {
    hide TableSchemaSha256, TablePolicyError, CanonicalTable, TargetSetOutcome;
  }

  /** The answer to call number `k`; after the last one the connection is lost. */
  function AnswerAt(replies: seq<Reply>, k: nat): Reply {
    if k < |replies| then replies[k] else Broken("connection_lost", None)
  }

  /** The call for the commit was made, and its answer confirmed it or did not. */
  predicate CommitAnswered(calls: seq<Phase>, replies: seq<Reply>, confirmed: bool) {
    exists k | 0 <= k < |calls| :: calls[k].Committing? && (AnswerAt(replies, k) == Fine <==> confirmed)
  }

  lemma ShiftAnswer(p: Phase, rest: seq<Phase>, replies: seq<Reply>, confirmed: bool)
    requires !p.Committing?
    ensures CommitAnswered([p] + rest, replies, confirmed) <==> CommitAnswered(rest, Rest(replies), confirmed)
  {
    forall k: nat ensures AnswerAt(Rest(replies), k) == AnswerAt(replies, k + 1) {
    }
    if CommitAnswered(rest, Rest(replies), confirmed) {
      var k :| 0 <= k < |rest| && rest[k].Committing? && (AnswerAt(Rest(replies), k) == Fine <==> confirmed);
      assert ([p] + rest)[k + 1].Committing? && AnswerAt(replies, k + 1) == AnswerAt(Rest(replies), k);
    }
    if CommitAnswered([p] + rest, replies, confirmed) {
      var k :| 0 <= k < |[p] + rest| && ([p] + rest)[k].Committing? && (AnswerAt(replies, k) == Fine <==> confirmed);
      assert rest[k - 1].Committing? && AnswerAt(replies, k) == AnswerAt(Rest(replies), k - 1);
    }
  }

  /** A run ends committed exactly when its commit was confirmed, and uncertain exactly when it was not. */
  lemma {:induction false} AnswerDecidesState(c: Context, p: Phase, replies: seq<Reply>)
    requires p.Ending? ==> !CommitState(p.state)
    ensures End(c, p, replies).state == Committed <==> CommitAnswered(Trace(c, p, replies), replies, true)
    ensures End(c, p, replies).state == Uncertain <==> CommitAnswered(Trace(c, p, replies), replies, false)
    decreases Rank(p)
  {
    hide Advance, End, Trace, Next, Rest, AnswerAt;
    if p.Ending? {
      AlreadyEnded(c, p, replies);
    } else {
      var r := Next(replies);
      var q := Advance(c, p, r);
      AdvanceRanks(c, p, r);
      EndStep(c, p, replies);
      NotYetCommitted(c, p, r);
      if p.Committing? {
        AlreadyEnded(c, q, Rest(replies));
        FirstAnswer(replies);
        CommitAnswer(c, p, r);
        assert Trace(c, p, replies) == [p] && [p][0] == p;
      } else {
        AnswerDecidesState(c, q, Rest(replies));
        ShiftAnswer(p, Trace(c, q, Rest(replies)), replies, true);
        ShiftAnswer(p, Trace(c, q, Rest(replies)), replies, false);
      }
    }
  }

  lemma FirstAnswer(replies: seq<Reply>)
    ensures AnswerAt(replies, 0) == Next(replies)
  {
  }

  lemma CommitAnswer(c: Context, p: Phase, r: Reply)
    requires p.Committing?
    ensures Advance(c, p, r).Ending? && Advance(c, p, r).state == if r == Fine then Committed else Uncertain
  {
  }

  /** The result says that the change is committed, recorded or not. */
  predicate SaysCommitted(r: Result<ApplyResult>) {
    if r.Ok? then r.value.state == Committed else r.error == AppError(Contract, "committed_receipt_finalization_uncertain")
  }

  /** The result says that nobody knows, recorded or not. */
  predicate SaysUncertain(r: Result<ApplyResult>) {
    if r.Ok? then r.value.state == Uncertain else r.error == AppError(Contract, "commit_receipt_finalization_uncertain")
  }

  /** What the result says about the commit. */
  predicate TellsOfAttempt(r: Result<ApplyResult>) {
    SaysCommitted(r) || SaysUncertain(r)
  }

  /**
   The result is truthful about the commit: it says committed exactly when the commit was confirmed, and
   uncertain exactly when it was attempted and not confirmed, whether or not the receipt could be finished.
   */
  lemma ResultIsTruthful(c: Context, prepared: ReceiptEvent, replies: seq<Reply>, clock: Clock, disk: Disk)
    ensures var r := FinalOutcome(c.hash, prepared, End(c, Start(c), replies), clock, disk);
      var calls := Trace(c, Start(c), replies);
      && (CommitAnswered(calls, replies, true) <==> SaysCommitted(r))
      && (CommitAnswered(calls, replies, false) <==> SaysUncertain(r))
  {
    hide FinalEvent, End, Trace, CommitAnswered;
    AnswerDecidesState(c, Start(c), replies);
    assert Start(c).Ending? ==> Start(c).state == Refused;
    assert |"committed_receipt_finalization_uncertain"| == 40 && |"commit_receipt_finalization_uncertain"| == 37;
  }

  /** The outcome after the receipt tells whether a commit was attempted. */
  lemma OutcomeClassification(c: Context, prepared: ReceiptEvent, replies: seq<Reply>, clock: Clock, disk: Disk)
    ensures Attempted(Trace(c, Start(c), replies))
       <==> TellsOfAttempt(FinalOutcome(c.hash, prepared, End(c, Start(c), replies), clock, disk))
  {
    AttemptDecidesState(c, Start(c), replies);
    hide FinalEvent, End, Trace, Attempted;
    assert Start(c).Ending? ==> Start(c).state == Refused;
  }

  // ---------------------------------------------------------------- what a commit attempt presupposes

  /** The definition, the policy and nothing less (src/engine.rs:294-314). */
  predicate EvidencePasses(c: Context, e: TableEvidence) {
    && CanonicalTable(e) == c.plan.preconditions.canonicalTable
    && TableSchemaSha256(c.hash, e) == c.plan.preconditions.tableSchemaSha256
    && TablePolicyError(e, c.analyzed.details.kind, c.plan.allowTriggers, c.plan.allowRowSecurity).None?
  }

  predicate ExecutionPasses(c: Context, replies: seq<Reply>) {
    replies != [] && replies[0] == AffectedAre(c.plan.preconditions.targetCount)
  }

  /** With the planned count: the budget, the planned fingerprint, the planned number of affected rows. */
  predicate RowsPass(c: Context, replies: seq<Reply>) {
    var pre := c.plan.preconditions;
    && pre.targetCount <= c.plan.limits.maxRows
    && if c.analyzed.details.targetRows.Some? then
         && replies != [] && replies[0].RowsAre?
         && TargetSetOutcome(c.hash, c.analyzed.normalized, Some(replies[0].rows), pre.targetCount) == Ok(pre.targetSetSha256)
         && ExecutionPasses(c, replies[1..])
       else
         && TargetSetOutcome(c.hash, c.analyzed.normalized, None, pre.targetCount) == Ok(pre.targetSetSha256)
         && ExecutionPasses(c, replies)
  }

  predicate TargetPasses(c: Context, replies: seq<Reply>) {
    var pre := c.plan.preconditions;
    if c.analyzed.details.count.Some? then
      replies != [] && replies[0] == CountIs(pre.targetCount) && RowsPass(c, replies[1..])
    else c.analyzed.details.insertedRows == pre.targetCount && RowsPass(c, replies)
  }

  /** Every answer is the one that the plan demands. */
  predicate AllPasses(c: Context, replies: seq<Reply>) {
    && RequestedTransport(c.insecure) == c.plan.transportPolicy
    && |replies| >= 6
    && replies[0] == ConnectedBy(c.plan.transportPolicy)
    && replies[1] == Fine && replies[2] == Fine && replies[3] == Fine
    && replies[4] == IdentityIs(c.plan.preconditions.database)
    && replies[5].EvidenceIs? && EvidencePasses(c, replies[5].evidence)
    && TargetPasses(c, replies[6..])
  }

  /** Whether a run attempts its commit from here. */
  ghost predicate Attempts(c: Context, p: Phase, replies: seq<Reply>) {
    Attempted(Trace(c, p, replies))
  }

  lemma AttemptsNext(c: Context, p: Phase, replies: seq<Reply>)
    ensures p.Committing? ==> Attempts(c, p, replies)
    ensures p.Ending? || p.RollingBack? ==> !Attempts(c, p, replies)
    ensures !p.Ending? && !p.Committing? ==>
              (Attempts(c, p, replies) <==> Attempts(c, Advance(c, p, Next(replies)), Rest(replies)))
  {
    hide Advance, Next, Rest, Trace;
    if p.Ending? {
      AlreadyEnded(c, p, replies);
    } else {
      EndStep(c, p, replies);
      LastCalls(c, p, Next(replies));
      var q := Advance(c, p, Next(replies));
      var rest := Trace(c, q, Rest(replies));
      if p.Committing? {
        assert ([p] + rest)[0] == p;
      } else {
        ShiftAttempt(p, rest);
        if p.RollingBack? {
          AlreadyEnded(c, q, Rest(replies));
        }
      }
    }
  }

  lemma ExecutionDecides(c: Context, d: DatabaseIdentity, h: string, n: nat, replies: seq<Reply>)
    requires n == c.plan.preconditions.targetCount
    ensures Attempts(c, Executing(d, h, n), replies) <==> ExecutionPasses(c, replies)
  {
    hide Attempts;
    AttemptsNext(c, Executing(d, h, n), replies);
    AttemptsNext(c, Advance(c, Executing(d, h, n), Next(replies)), Rest(replies));
  }

  lemma RowsDecide(c: Context, d: DatabaseIdentity, h: string, n: nat, replies: seq<Reply>)
    ensures Attempts(c, AfterCount(c, d, h, n), replies) <==> n == c.plan.preconditions.targetCount && RowsPass(c, replies)
  {
    hide Attempts, TargetSetOutcome, ExecutionPasses;
    var p := AfterCount(c, d, h, n);
    AttemptsNext(c, p, replies);
    if p.Executing? {
      ExecutionDecides(c, d, h, n, replies);
    } else if p.Fingerprinting? {
      var q := Advance(c, p, Next(replies));
      AttemptsNext(c, q, Rest(replies));
      if q.Executing? {
        ExecutionDecides(c, d, h, n, Rest(replies));
      }
    }
  }

  lemma CountDecides(c: Context, d: DatabaseIdentity, h: string, replies: seq<Reply>)
    ensures Attempts(c, Counting(d, h), replies) <==>
            replies != [] && replies[0] == CountIs(c.plan.preconditions.targetCount) && RowsPass(c, replies[1..])
  {
    hide Attempts, AfterCount, RowsPass;
    var q := Advance(c, Counting(d, h), Next(replies));
    AttemptsNext(c, Counting(d, h), replies);
    AttemptsNext(c, q, Rest(replies));
    if Next(replies).CountIs? && Next(replies).count >= 0 {
      RowsDecide(c, d, h, Next(replies).count, Rest(replies));
    }
  }

  lemma TargetDecides(c: Context, d: DatabaseIdentity, e: TableEvidence, replies: seq<Reply>)
    ensures Attempts(c, AfterEvidence(c, d, e), replies) <==> EvidencePasses(c, e) && TargetPasses(c, replies)
  {
    hide Attempts, AfterCount, RowsPass, TableSchemaSha256, CanonicalTable, TablePolicyError;
    var p, h := AfterEvidence(c, d, e), TableSchemaSha256(c.hash, e);
    AttemptsNext(c, p, replies);
    if EvidencePasses(c, e) {
      if c.analyzed.details.count.Some? {
        CountDecides(c, d, h, replies);
      } else {
        RowsDecide(c, d, h, c.analyzed.details.insertedRows, replies);
      }
    }
  }

  lemma InspectionDecides(c: Context, d: DatabaseIdentity, replies: seq<Reply>)
    ensures Attempts(c, Inspecting(d), replies) <==>
            replies != [] && replies[0].EvidenceIs? && EvidencePasses(c, replies[0].evidence) && TargetPasses(c, replies[1..])
  {
    hide Attempts, AfterEvidence, EvidencePasses, TargetPasses;
    AttemptsNext(c, Inspecting(d), replies);
    if Next(replies).EvidenceIs? {
      TargetDecides(c, d, Next(replies).evidence, Rest(replies));
    } else {
      AttemptsNext(c, Advance(c, Inspecting(d), Next(replies)), Rest(replies));
    }
  }

  lemma OpeningDecides(c: Context, replies: seq<Reply>)
    ensures Attempts(c, Connecting, replies) <==>
            && |replies| >= 5 && replies[0] == ConnectedBy(c.plan.transportPolicy)
            && replies[1] == Fine && replies[2] == Fine && replies[3] == Fine
            && replies[4] == IdentityIs(c.plan.preconditions.database)
            && Attempts(c, Inspecting(c.plan.preconditions.database), replies[5..])
  {
    hide Attempts;
    var r1, r2, r3, r4 := Rest(replies), Rest(Rest(replies)), Rest(Rest(Rest(replies))), Rest(Rest(Rest(Rest(replies))));
    AttemptsNext(c, Connecting, replies);
    AttemptsNext(c, Advance(c, Connecting, Next(replies)), r1);
    AttemptsNext(c, Advance(c, Beginning, Next(r1)), r2);
    AttemptsNext(c, Advance(c, SettingTimeouts, Next(r2)), r3);
    AttemptsNext(c, Advance(c, Locking, Next(r3)), r4);
    AttemptsNext(c, Advance(c, Identifying, Next(r4)), Rest(r4));
    if |replies| >= 5 {
      assert r4 == replies[4..] && Rest(r4) == replies[5..];
    }
  }

  /**
   A run attempts its commit exactly when the transport, the identity, the definition, the policy, the count,
   the budget, the fingerprint and the affected rows are those of the plan: no check can be skipped, and none
   is added.
   */
  lemma AttemptExactlyWhenAllPasses(c: Context, replies: seq<Reply>)
    ensures Attempted(Trace(c, Start(c), replies)) <==> AllPasses(c, replies)
  {
    AttemptsNext(c, Start(c), replies);
    assert Attempts(c, Start(c), replies) <==> Attempted(Trace(c, Start(c), replies));
    hide Attempts, Attempted, EvidencePasses, TargetPasses;
    if Start(c) == Connecting {
      OpeningDecides(c, replies);
      if |replies| >= 5 {
        InspectionDecides(c, c.plan.preconditions.database, replies[5..]);
        if |replies| >= 6 {
          assert replies[5..][0] == replies[5] && replies[5..][1..] == replies[6..];
        }
      }
    }
  }

  // ---------------------------------------------------------------- the budget

  /** What a phase has established about the plan. */
  predicate Sound(c: Context, p: Phase) {
    var pre := c.plan.preconditions;
    match p
    case Inspecting(d) => d == pre.database
    case Counting(d, h) => d == pre.database && h == pre.tableSchemaSha256
    case Fingerprinting(d, h, n) =>
      d == pre.database && h == pre.tableSchemaSha256 && n == pre.targetCount <= c.plan.limits.maxRows
    case Executing(d, h, n) =>
      d == pre.database && h == pre.tableSchemaSha256 && n == pre.targetCount <= c.plan.limits.maxRows
    case Committing(r) => r.affectedRows == Some(pre.targetCount) && pre.targetCount <= c.plan.limits.maxRows
    case Ending(s, r) =>
      CommitState(s) ==> r.affectedRows == Some(pre.targetCount) && pre.targetCount <= c.plan.limits.maxRows
    case _ => true
  }

  lemma CountSound(c: Context, d: DatabaseIdentity, h: string, n: nat)
    requires d == c.plan.preconditions.database && h == c.plan.preconditions.tableSchemaSha256
    ensures Sound(c, AfterCount(c, d, h, n))
  {
    hide TargetSetOutcome;
  }

  lemma EvidenceSound(c: Context, d: DatabaseIdentity, e: TableEvidence)
    requires d == c.plan.preconditions.database
    ensures Sound(c, AfterEvidence(c, d, e))
  {
    hide AfterCount, TableSchemaSha256, TablePolicyError, CanonicalTable;
    if TableSchemaSha256(c.hash, e) == c.plan.preconditions.tableSchemaSha256 {
      CountSound(c, d, TableSchemaSha256(c.hash, e), c.analyzed.details.insertedRows);
    }
  }

  lemma AdvanceSound(c: Context, p: Phase, r: Reply)
    requires Sound(c, p)
    ensures Sound(c, Advance(c, p, r))
  {
    hide AfterEvidence, AfterCount, TargetSetOutcome;
    match p
    case Inspecting(d) => if r.EvidenceIs? { EvidenceSound(c, d, r.evidence); }
    case Counting(d, h) => if r.CountIs? && r.count >= 0 { CountSound(c, d, h, r.count); }
    case _ =>
  }

  lemma {:induction false} EndSound(c: Context, p: Phase, replies: seq<Reply>)
    requires Sound(c, p)
    ensures Sound(c, End(c, p, replies))
    decreases Rank(p)
  {
    if !p.Ending? {
      AdvanceSound(c, p, Next(replies));
      AdvanceRanks(c, p, Next(replies));
      hide Advance, Sound;
      EndSound(c, Advance(c, p, Next(replies)), Rest(replies));
    }
  }

  /** Whatever the database answers, a run that commits has affected as many rows as planned, within the budget. */
  lemma CommittedWithinBudget(c: Context, replies: seq<Reply>)
    requires LimitsError(c.plan.limits).None?
    requires CommitState(End(c, Start(c), replies).state)
    ensures End(c, Start(c), replies).result.affectedRows == Some(c.plan.preconditions.targetCount)
    ensures c.plan.preconditions.targetCount <= c.plan.limits.maxRows <= 1_000_000
  {
    hide Advance, End;
    EndSound(c, Start(c), replies);
  }

  /** Under the plan binding, the row-budget refusal after the lock is never reached. */
  lemma BudgetRefusalUnreachable(c: Context, d: DatabaseIdentity, schemaHash: string, count: nat)
    requires BindingError(c.plan, c.analyzed).None?
    ensures AfterCount(c, d, schemaHash, count) != RefusedFor("row_budget_exceeded", Some(d), Some(schemaHash))
  {
    hide StreamOutcome;
  }

  // ---------------------------------------------------------------- how a run ends, answer by answer

  function Later(replies: seq<Reply>, k: nat): seq<Reply> {
    if k <= |replies| then replies[k..] else []
  }

  lemma EndAt(c: Context, p: Phase, replies: seq<Reply>, k: nat)
    requires !p.Ending?
    ensures End(c, p, Later(replies, k)) == End(c, Advance(c, p, AnswerAt(replies, k)), Later(replies, k + 1))
  {
    hide Advance, End;
    EndStep(c, p, Later(replies, k));
  }

  /** The run is refused for this reason, with what it knows of the database. */
  function RefusedIf(condition: bool, code: string, d: Option<DatabaseIdentity>, h: Option<string>): Option<Phase> {
    if condition then Some(Ending(Refused, ReceiptResult(None, code, None, d, h))) else None
  }

  function CodeOf(r: Reply): string {
    if r.Broken? then r.code else "unexpected_reply"
  }

  /** From the transport to the identity. */
  function OpeningFindings(c: Context, replies: seq<Reply>): seq<Option<Phase>> {
    var t, r0, r4 := c.plan.transportPolicy, AnswerAt(replies, 0), AnswerAt(replies, 4);
    [ RefusedIf((if c.insecure then InsecureLocalhost else TlsRequired) != t, "transport_policy_drift", None, None),
      RefusedIf(!r0.ConnectedBy?, CodeOf(r0), None, None),
      RefusedIf(r0 != ConnectedBy(t), "transport_policy_drift", None, None),
      RefusedIf(AnswerAt(replies, 1) != Fine, "apply_transaction_failed", None, None),
      RefusedIf(AnswerAt(replies, 2) != Fine, "timeout_configuration_failed", None, None),
      RefusedIf(AnswerAt(replies, 3) != Fine, "table_lock_failed", None, None),
      RefusedIf(!r4.IdentityIs?, "identity_query_failed", None, None),
      RefusedIf(r4.IdentityIs? && r4.identity != c.plan.preconditions.database, "database_identity_drift",
                if r4.IdentityIs? then Some(r4.identity) else None, None)]
  }

  /** The inspection of the locked table. */
  function InspectionFindings(c: Context, d: DatabaseIdentity, r: Reply): seq<Option<Phase>> {
    if !r.EvidenceIs? then [RefusedIf(true, CodeOf(r), Some(d), None)]
    else
      var h := TableSchemaSha256(c.hash, r.evidence);
      var policy := Report(PolicyFindings(r.evidence, c.analyzed.details.kind, c.plan.allowTriggers,
                                          c.plan.allowRowSecurity), 0);
      [ RefusedIf(CanonicalTable(r.evidence) != c.plan.preconditions.canonicalTable
                  || h != c.plan.preconditions.tableSchemaSha256, "table_schema_drift", Some(d), Some(h)),
        RefusedIf(policy.Some?, if policy.Some? then policy.value.code else "", Some(d), Some(h))]
  }

  /** The count and the fingerprint. */
  function TargetFindings(c: Context, d: Option<DatabaseIdentity>, h: Option<string>, counted: Reply, listed: Reply)
    : seq<Option<Phase>>
  {
    var pre, byQuery := c.plan.preconditions, c.analyzed.details.targetRows.Some?;
    var rows := if listed.RowsAre? then listed.rows else Stream([], true);
    [ RefusedIf(!counted.CountIs? || counted.count < 0, "target_count_failed", d, h),
      RefusedIf(counted != CountIs(pre.targetCount), "target_count_drift", d, h),
      RefusedIf(pre.targetCount > c.plan.limits.maxRows, "row_budget_exceeded", d, h),
      RefusedIf(byQuery && !listed.RowsAre?, "target_evidence_query_failed", d, h),
      RefusedIf(byQuery && FramedSize(rows.texts) > 67_108_864, "target_evidence_bytes_exceeded", d, h),
      RefusedIf(byQuery && rows.broken, "target_evidence_query_failed", d, h),
      RefusedIf(byQuery && |rows.texts| != pre.targetCount, "target_evidence_count_mismatch", d, h),
      RefusedIf(Sha256(c.hash, if byQuery then Buffer(rows.texts) else c.analyzed.normalized) != pre.targetSetSha256,
                "target_set_drift", d, h)]
  }

  /** The execution and the commit; the last entry is the success. */
  function CommitFindings(c: Context, d: Option<DatabaseIdentity>, h: Option<string>, executed: Reply, committed: Reply)
    : seq<Option<Phase>>
  {
    var n := c.plan.preconditions.targetCount;
    [ if executed.AffectedAre? then None
      else
        Some(Ending(RolledBack, ReceiptResult(None, "statement_execution_failed",
                                              if executed.Broken? then executed.sqlstate else None, d, h))),
      if executed.AffectedAre? && executed.affected != n then
        Some(Ending(RolledBack, ReceiptResult(Some(executed.affected), "affected_rows_mismatch", None, d, h)))
      else None,
      if committed != Fine then
        Some(Ending(Uncertain, ReceiptResult(Some(n), "commit_outcome_uncertain", None, d, h)))
      else None,
      Some(Ending(Committed, ReceiptResult(Some(n), "applied", None, d, h)))]
  }

  /** Every way in which a run can end, in the order of the answers. */
  function EndFindings(c: Context, replies: seq<Reply>): seq<Option<Phase>> {
    var pre := c.plan.preconditions;
    var r5 := AnswerAt(replies, 5);
    var d, h := Some(pre.database), Some(pre.tableSchemaSha256);
    var next := if c.analyzed.details.count.Some? then 7 else 6;
    var counted := if c.analyzed.details.count.Some? then AnswerAt(replies, 6) else CountIs(c.analyzed.details.insertedRows);
    var last := if c.analyzed.details.targetRows.Some? then next + 1 else next;
    OpeningFindings(c, replies)
    + InspectionFindings(c, pre.database, r5)
    + TargetFindings(c, d, h, counted, AnswerAt(replies, next))
    + CommitFindings(c, d, h, AnswerAt(replies, last), AnswerAt(replies, last + 1))
  }

  lemma OpeningEnds(c: Context, replies: seq<Reply>)
    ensures var e := Report(OpeningFindings(c, replies), 0);
      End(c, Start(c), replies) == if e.Some? then e.value else End(c, Inspecting(c.plan.preconditions.database), Later(replies, 5))
  {
    hide End;
    var f := OpeningFindings(c, replies);
    var _ := [Report(f, 1), Report(f, 2), Report(f, 3), Report(f, 4), Report(f, 5), Report(f, 6), Report(f, 7), Report(f, 8)];
    assert Later(replies, 0) == replies;
    if Start(c) == Connecting {
      EndAt(c, Connecting, replies, 0);
      EndAt(c, Beginning, replies, 1);
      EndAt(c, SettingTimeouts, replies, 2);
      EndAt(c, Locking, replies, 3);
      EndAt(c, Identifying, replies, 4);
    }
    forall p: Phase, rest: seq<Reply> | p.Ending? ensures End(c, p, rest) == p {
      AlreadyEnded(c, p, rest);
    }
  }

  lemma TableEnds(c: Context, d: DatabaseIdentity, replies: seq<Reply>)
    ensures var r := AnswerAt(replies, 5); var e := Report(InspectionFindings(c, d, r), 0);
      && (e.None? ==> r.EvidenceIs? && TableSchemaSha256(c.hash, r.evidence) == c.plan.preconditions.tableSchemaSha256)
      && End(c, Inspecting(d), Later(replies, 5))
         == if e.Some? then e.value
            else if c.analyzed.details.count.Some? then
              End(c, Counting(d, c.plan.preconditions.tableSchemaSha256), Later(replies, 6))
            else
              End(c, AfterCount(c, d, c.plan.preconditions.tableSchemaSha256, c.analyzed.details.insertedRows), Later(replies, 6))
  {
    hide End, AfterCount, TableSchemaSha256, CanonicalTable, PolicyFindings, TablePolicyError;
    var r := AnswerAt(replies, 5);
    var f := InspectionFindings(c, d, r);
    var _ := [Report(f, 1), Report(f, 2)];
    EndAt(c, Inspecting(d), replies, 5);
    if r.EvidenceIs? {
      PolicyReport(r.evidence, c.analyzed.details.kind, c.plan.allowTriggers, c.plan.allowRowSecurity);
    }
    forall p: Phase, rest: seq<Reply> | p.Ending? ensures End(c, p, rest) == p {
      AlreadyEnded(c, p, rest);
    }
  }

  /** From a count on. */
  lemma CountedEnds(c: Context, d: DatabaseIdentity, h: string, n: nat, replies: seq<Reply>, next: nat)
    ensures var listed := c.analyzed.details.targetRows.Some?;
      var e := Report(TargetFindings(c, Some(d), Some(h), CountIs(n), AnswerAt(replies, next)), 0);
      End(c, AfterCount(c, d, h, n), Later(replies, next))
      == if e.Some? then e.value
         else End(c, Executing(d, h, c.plan.preconditions.targetCount), Later(replies, if listed then next + 1 else next))
  {
    hide End, Sha256, Buffer, FramedSize;
    var f := TargetFindings(c, Some(d), Some(h), CountIs(n), AnswerAt(replies, next));
    var _ := [Report(f, 1), Report(f, 2), Report(f, 3), Report(f, 4), Report(f, 5), Report(f, 6), Report(f, 7), Report(f, 8)];
    if c.analyzed.details.targetRows.Some? {
      EndAt(c, Fingerprinting(d, h, n), replies, next);
    }
    forall p: Phase, rest: seq<Reply> | p.Ending? ensures End(c, p, rest) == p {
      AlreadyEnded(c, p, rest);
    }
  }

  lemma CountEnds(c: Context, d: DatabaseIdentity, h: string, replies: seq<Reply>)
    ensures var listed := c.analyzed.details.targetRows.Some?;
      var e := Report(TargetFindings(c, Some(d), Some(h), AnswerAt(replies, 6), AnswerAt(replies, 7)), 0);
      End(c, Counting(d, h), Later(replies, 6))
      == if e.Some? then e.value
         else End(c, Executing(d, h, c.plan.preconditions.targetCount), Later(replies, if listed then 8 else 7))
  {
    hide End, AfterCount, Sha256, Buffer, FramedSize;
    var r := AnswerAt(replies, 6);
    var f := TargetFindings(c, Some(d), Some(h), r, AnswerAt(replies, 7));
    EndAt(c, Counting(d, h), replies, 6);
    if r.CountIs? && r.count >= 0 {
      CountedEnds(c, d, h, r.count, replies, 7);
    } else {
      AlreadyEnded(c, Advance(c, Counting(d, h), r), Later(replies, 7));
    }
  }

  lemma ExecutionEnds(c: Context, d: DatabaseIdentity, h: string, replies: seq<Reply>, k: nat)
    ensures Some(End(c, Executing(d, h, c.plan.preconditions.targetCount), Later(replies, k)))
         == Report(CommitFindings(c, Some(d), Some(h), AnswerAt(replies, k), AnswerAt(replies, k + 1)), 0)
  {
    hide End;
    var p := Executing(d, h, c.plan.preconditions.targetCount);
    var f := CommitFindings(c, Some(d), Some(h), AnswerAt(replies, k), AnswerAt(replies, k + 1));
    var _ := [Report(f, 1), Report(f, 2), Report(f, 3)];
    EndAt(c, p, replies, k);
    var q := Advance(c, p, AnswerAt(replies, k));
    EndAt(c, q, replies, k + 1);
    LastCalls(c, q, AnswerAt(replies, k + 1));
    AlreadyEnded(c, Advance(c, q, AnswerAt(replies, k + 1)), Later(replies, k + 2));
  }

  /**
   How a run ends, for any answers: with the first of these reasons, in the order of the answers, and with what
   it has learnt until then; without one of them, committed.
   */
  lemma EndExactly(c: Context, replies: seq<Reply>, end: Phase)
    ensures End(c, Start(c), replies) == end <==> Reports(EndFindings(c, replies), end)
  {
    hide End, OpeningFindings, InspectionFindings, TargetFindings, CommitFindings, AfterCount, Reports, Start, Report, Silent;
    hide AnswerAt, Later;
    var pre, details := c.plan.preconditions, c.analyzed.details;
    var d, h := Some(pre.database), Some(pre.tableSchemaSha256);
    var next := if details.count.Some? then 7 else 6;
    var counted := if details.count.Some? then AnswerAt(replies, 6) else CountIs(details.insertedRows);
    var last := if details.targetRows.Some? then next + 1 else next;
    var opening, table := OpeningFindings(c, replies), InspectionFindings(c, pre.database, AnswerAt(replies, 5));
    var rows := TargetFindings(c, d, h, counted, AnswerAt(replies, next));
    var commit := CommitFindings(c, d, h, AnswerAt(replies, last), AnswerAt(replies, last + 1));
    OpeningEnds(c, replies);
    TableEnds(c, pre.database, replies);
    if details.count.Some? {
      CountEnds(c, pre.database, pre.tableSchemaSha256, replies);
    } else {
      CountedEnds(c, pre.database, pre.tableSchemaSha256, details.insertedRows, replies, 6);
    }
    ExecutionEnds(c, pre.database, pre.tableSchemaSha256, replies, last);
    FourStages(opening, table, rows, commit);
    ReportIs(EndFindings(c, replies), end);
  }

  lemma FourStages<T>(w: seq<Option<T>>, x: seq<Option<T>>, y: seq<Option<T>>, z: seq<Option<T>>)
    ensures Report(w + x + y + z, 0)
         == if Report(w, 0).Some? then Report(w, 0)
            else if Report(x, 0).Some? then Report(x, 0)
            else if Report(y, 0).Some? then Report(y, 0)
            else Report(z, 0)
  {
    ReportAppend(w, x);
    ReportAppend(w + x, y);
    ReportAppend(w + x + y, z);
  }
}

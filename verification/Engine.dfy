/**
 The apply protocol of one run (src/engine.rs).

 `Phase` is where a run stands: the database call it makes next, with what it has learnt so far.  `Advance`
 is the decision the program takes on the answer to that call.  `ApplyAfterReceipt` is the program itself,
 driving a session call by call; the interleaved model in `Protocol` moves its runs by the same `Advance`.
 */
module Engine {
  import opened Wrappers
  import opened Integrity
  import opened Model
  import opened Receipt
  import opened Journal
  import opened Fingerprint
  import opened Db
  import opened Sql

  const MIN_POSTGRES_VERSION_NUM := 130_000
  const MAX_PLAN_LIFETIME_MS := 86_400_000

  // ---------------------------------------------------------------- pure checks

  function LimitsError(l: Limits): Option<AppError> {
    if l.maxRows == 0 || l.maxRows > 1_000_000 then Some(AppError(Usage, "max_rows_invalid"))
    else if !(100 <= l.statementTimeoutMs <= 600_000) || !(1 <= l.lockTimeoutMs <= 60_000)
            || l.lockTimeoutMs > l.statementTimeoutMs then Some(AppError(Usage, "timeout_invalid"))
    else None
  }

  function BindingError(plan: Plan, a: AnalyzedSql): Option<AppError> {
    if plan.statementKind != a.details.kind
       || plan.requestedTable != a.requestedTable
       || plan.sqlFileSha256 != a.sqlFileSha256
       || plan.normalizedSqlSha256 != a.normalizedSqlSha256
       || plan.countQuerySha256 != a.countQuerySha256
       || plan.targetQuerySha256 != a.targetQuerySha256 then Some(AppError(Contract, "plan_sql_mismatch"))
    else if plan.preconditions.targetCount > plan.limits.maxRows then Some(AppError(Contract, "plan_budget_invalid"))
    else None
  }

  // ---------------------------------------------------------------- the automaton of one run

  /** What a database call answers. */
  datatype Reply =
    | Broken(code: string, sqlstate: Option<string>)
    | Fine
    | ConnectedBy(transport: TransportPolicy)
    | IdentityIs(identity: DatabaseIdentity)
    | EvidenceIs(evidence: TableEvidence)
    | CountIs(count: int)
    | RowsAre(rows: Stream)
    | AffectedAre(affected: U64)

  datatype Context = Context(hash: Hasher, plan: Plan, analyzed: AnalyzedSql, insecure: bool)

  datatype Phase =
    | Connecting
    | Beginning
    | SettingTimeouts
    | Locking
    | Identifying
    | Inspecting(identity: DatabaseIdentity)
    | Counting(identity: DatabaseIdentity, schemaHash: string)
    | Fingerprinting(identity: DatabaseIdentity, schemaHash: string, count: nat)
    | Executing(identity: DatabaseIdentity, schemaHash: string, count: nat)
    | RollingBack(result: ReceiptResult)
    | Committing(result: ReceiptResult)
    | Ending(state: ReceiptState, result: ReceiptResult)

  function Rank(p: Phase): nat {
    match p
    case Connecting => 11
    case Beginning => 10
    case SettingTimeouts => 9
    case Locking => 8
    case Identifying => 7
    case Inspecting(_) => 6
    case Counting(_, _) => 5
    case Fingerprinting(_, _, _) => 4
    case Executing(_, _, _) => 3
    case RollingBack(_) => 2
    case Committing(_) => 1
    case Ending(_, _) => 0
  }

  function RefusedFor(reason: string, identity: Option<DatabaseIdentity>, schemaHash: Option<string>): Phase {
    Ending(Refused, ReceiptResult(None, reason, None, identity, schemaHash))
  }

  function RequestedTransport(insecure: bool): TransportPolicy {
    if insecure then InsecureLocalhost else TlsRequired
  }

  function Start(c: Context): Phase {
    if RequestedTransport(c.insecure) != c.plan.transportPolicy then RefusedFor("transport_policy_drift", None, None)
    else Connecting
  }

  function AfterEvidence(c: Context, d: DatabaseIdentity, e: TableEvidence): Phase {
    var schemaHash := TableSchemaSha256(c.hash, e);
    var policy := TablePolicyError(e, c.analyzed.details.kind, c.plan.allowTriggers, c.plan.allowRowSecurity);
    if CanonicalTable(e) != c.plan.preconditions.canonicalTable
       || schemaHash != c.plan.preconditions.tableSchemaSha256 then
      RefusedFor("table_schema_drift", Some(d), Some(schemaHash))
    else if policy.Some? then RefusedFor(policy.value.code, Some(d), Some(schemaHash))
    else if c.analyzed.details.count.Some? then Counting(d, schemaHash)
    else AfterCount(c, d, schemaHash, c.analyzed.details.insertedRows)
  }

  function AfterCount(c: Context, d: DatabaseIdentity, schemaHash: string, count: nat): Phase {
    if count != c.plan.preconditions.targetCount then RefusedFor("target_count_drift", Some(d), Some(schemaHash))
    else if count > c.plan.limits.maxRows then RefusedFor("row_budget_exceeded", Some(d), Some(schemaHash))
    else if c.analyzed.details.targetRows.Some? then Fingerprinting(d, schemaHash, count)
    else AfterFingerprint(c, d, schemaHash, count, TargetSetOutcome(c.hash, c.analyzed.normalized, None, count))
  }

  function AfterFingerprint(c: Context, d: DatabaseIdentity, schemaHash: string, count: nat, r: Result<string>): Phase {
    if r.Err? then RefusedFor(r.error.code, Some(d), Some(schemaHash))
    else if r.value != c.plan.preconditions.targetSetSha256 then
      RefusedFor("target_set_drift", Some(d), Some(schemaHash))
    else Executing(d, schemaHash, count)
  }

  function AfterExecution(d: DatabaseIdentity, schemaHash: string, count: nat, affected: U64): Phase {
    if affected != count then
      RollingBack(ReceiptResult(Some(affected), "affected_rows_mismatch", None, Some(d), Some(schemaHash)))
    else Committing(ReceiptResult(Some(affected), "applied", None, Some(d), Some(schemaHash)))
  }

  function BrokenCode(r: Reply): string {
    if r.Broken? then r.code else "unexpected_reply"
  }

  function OnConnect(c: Context, r: Reply): Phase {
    if !r.ConnectedBy? then RefusedFor(BrokenCode(r), None, None)
    else if r.transport != c.plan.transportPolicy then RefusedFor("transport_policy_drift", None, None)
    else Beginning
  }

  function OnBegin(r: Reply): Phase {
    if r.Fine? then SettingTimeouts else RefusedFor("apply_transaction_failed", None, None)
  }

  function OnTimeouts(r: Reply): Phase {
    if r.Fine? then Locking else RefusedFor("timeout_configuration_failed", None, None)
  }

  function OnLock(r: Reply): Phase {
    if r.Fine? then Identifying else RefusedFor("table_lock_failed", None, None)
  }

  function OnIdentity(c: Context, r: Reply): Phase {
    if !r.IdentityIs? then RefusedFor("identity_query_failed", None, None)
    else if r.identity != c.plan.preconditions.database then
      RefusedFor("database_identity_drift", Some(r.identity), None)
    else Inspecting(r.identity)
  }

  function OnEvidence(c: Context, d: DatabaseIdentity, r: Reply): Phase {
    if r.EvidenceIs? then AfterEvidence(c, d, r.evidence) else RefusedFor(BrokenCode(r), Some(d), None)
  }

  function OnCount(c: Context, d: DatabaseIdentity, h: string, r: Reply): Phase {
    if r.CountIs? && r.count >= 0 then AfterCount(c, d, h, r.count)
    else RefusedFor("target_count_failed", Some(d), Some(h))
  }

  function OnRows(c: Context, d: DatabaseIdentity, h: string, n: nat, r: Reply): Phase {
    if r.RowsAre? then AfterFingerprint(c, d, h, n, TargetSetOutcome(c.hash, c.analyzed.normalized, Some(r.rows), n))
    else RefusedFor("target_evidence_query_failed", Some(d), Some(h))
  }

  function OnExecution(d: DatabaseIdentity, h: string, n: nat, r: Reply): Phase {
    if r.AffectedAre? then AfterExecution(d, h, n, r.affected)
    else
      RollingBack(ReceiptResult(None, "statement_execution_failed", if r.Broken? then r.sqlstate else None,
                                Some(d), Some(h)))
  }

  function OnCommit(result: ReceiptResult, r: Reply): Phase {
    if r.Fine? then Ending(Committed, result)
    else Ending(Uncertain, result.(reasonCode := "commit_outcome_uncertain"))
  }

  /** The decision on the answer to the call of a phase. */
  function Advance(c: Context, p: Phase, r: Reply): Phase {
    match p
    case Connecting => OnConnect(c, r)
    case Beginning => OnBegin(r)
    case SettingTimeouts => OnTimeouts(r)
    case Locking => OnLock(r)
    case Identifying => OnIdentity(c, r)
    case Inspecting(d) => OnEvidence(c, d, r)
    case Counting(d, h) => OnCount(c, d, h, r)
    case Fingerprinting(d, h, n) => OnRows(c, d, h, n, r)
    case Executing(d, h, n) => OnExecution(d, h, n, r)
    case RollingBack(result) => Ending(RolledBack, result)
    case Committing(result) => OnCommit(result, r)
    case Ending(_, _) => p
  }

  lemma CountRanks(c: Context, d: DatabaseIdentity, h: string, n: nat)
    ensures Rank(AfterCount(c, d, h, n)) <= 4
  {
    hide TargetSetOutcome;
  }

  lemma EvidenceRanks(c: Context, d: DatabaseIdentity, e: TableEvidence)
    ensures Rank(AfterEvidence(c, d, e)) <= 5
  {
    hide AfterCount, TableSchemaSha256, TablePolicyError, CanonicalTable;
    CountRanks(c, d, TableSchemaSha256(c.hash, e), c.analyzed.details.insertedRows);
  }

  /** Every answer moves the run forward, so it ends after at most eleven calls. */
  lemma AdvanceRanks(c: Context, p: Phase, r: Reply)
    requires !p.Ending?
    ensures Rank(Advance(c, p, r)) < Rank(p)
  {
    hide AfterEvidence, AfterCount, TargetSetOutcome;
    match p
    case Inspecting(d) => if r.EvidenceIs? { EvidenceRanks(c, d, r.evidence); }
    case Counting(d, h) => if r.CountIs? && r.count >= 0 { CountRanks(c, d, h, r.count); }
    case _ =>
  }

  function Next(replies: seq<Reply>): Reply {
    if replies == [] then Broken("connection_lost", None) else replies[0]
  }

  function Rest(replies: seq<Reply>): seq<Reply> {
    if replies == [] then [] else replies[1..]
  }

  /** Where a run ends on the given answers; a session without answers left is a lost connection. */
  function End(c: Context, p: Phase, replies: seq<Reply>): (q: Phase)
    ensures q.Ending?
    decreases Rank(p)
  {
    if p.Ending? then p
    else
      AdvanceRanks(c, p, Next(replies));
      End(c, Advance(c, p, Next(replies)), Rest(replies))
  }

  /** The calls it makes on the way. */
  function Trace(c: Context, p: Phase, replies: seq<Reply>): seq<Phase>
    decreases Rank(p)
  {
    if p.Ending? then []
    else
      AdvanceRanks(c, p, Next(replies));
      [p] + Trace(c, Advance(c, p, Next(replies)), Rest(replies))
  }

  // ---------------------------------------------------------------- the end of a run

  datatype Clock = At(now: U64) | BeforeEpoch | OutOfRange

  function UnixMs(clock: Clock): Result<U64> {
    match clock
    case At(now) => Ok(now)
    case BeforeEpoch => Err(AppError(Io, "clock_before_epoch"))
    case OutOfRange => Err(AppError(Io, "clock_out_of_range"))
  }

  const COMMITTED_UNRECORDED := "committed_receipt_finalization_uncertain"
  const UNCERTAIN_UNRECORDED := "commit_receipt_finalization_uncertain"

  /** What `finish`, `finish_committed` and `finish_uncertain` make of the journal's answer. */
  function Finished(state: ReceiptState, result: ReceiptResult, receiptId: string, r: Result<ReceiptEvent>)
    : Result<ApplyResult>
  {
    if r.Ok? then Ok(ApplyResult(receiptId, state, r.value.planSha256, result.affectedRows, result.reasonCode))
    else if state == Committed then Err(AppError(Contract, COMMITTED_UNRECORDED))
    else if state == Uncertain then Err(AppError(Contract, UNCERTAIN_UNRECORDED))
    else Err(r.error)
  }

  function FinalOutcome(hash: Hasher, prepared: ReceiptEvent, end: Phase, clock: Clock, disk: Disk): Result<ApplyResult>
    requires end.Ending?
  {
    Finished(end.state, end.result, prepared.receiptId,
             FinalizeOutcome(hash, prepared, end.state, end.result, UnixMs(clock), disk))
  }

  // ---------------------------------------------------------------- the program

  /** A database session: the answers it will give and the calls it was asked. */
  class Session {
    var replies: seq<Reply>
    var asked: seq<Phase>

    constructor (replies: seq<Reply>)
      ensures this.replies == replies && asked == []
    {
      this.replies, asked := replies, [];
    }

    method Ask(p: Phase) returns (r: Reply)
      modifies this
      ensures r == Next(old(replies)) && replies == Rest(old(replies)) && asked == old(asked) + [p]
    {
      r := Next(replies);
      replies := Rest(replies);
      asked := asked + [p];
    }
  }

  /** A point on the way: the same end lies ahead, and the calls made and to come add up to the same calls. */
  ghost predicate OnTheWay(c: Context, p: Phase, before: seq<Reply>, asked: seq<Phase>, q: Phase, after: seq<Reply>,
                           askedNow: seq<Phase>)
  {
    && End(c, p, before) == End(c, q, after)
    && asked + Trace(c, p, before) == askedNow + Trace(c, q, after)
  }

  lemma EndStep(c: Context, q: Phase, replies: seq<Reply>)
    requires !q.Ending?
    ensures End(c, q, replies) == End(c, Advance(c, q, Next(replies)), Rest(replies))
    ensures Trace(c, q, replies) == [q] + Trace(c, Advance(c, q, Next(replies)), Rest(replies))
  {
    hide Advance, Next, Rest;
  }

  lemma Step(c: Context, p: Phase, before: seq<Reply>, asked: seq<Phase>, q: Phase, after: seq<Reply>,
             askedNow: seq<Phase>)
    requires OnTheWay(c, p, before, asked, q, after, askedNow) && !q.Ending?
    ensures OnTheWay(c, p, before, asked, Advance(c, q, Next(after)), Rest(after), askedNow + [q])
  {
    hide Advance, End, Trace, Next, Rest;
    EndStep(c, q, after);
    var more := Trace(c, Advance(c, q, Next(after)), Rest(after));
    assert askedNow + ([q] + more) == askedNow + [q] + more;
  }

  /** Connects, opens the transaction, bounds it in time and locks the table (src/engine.rs:226-278). */
  method OpenLocked(c: Context, session: Session) returns (p: Phase)
    modifies session
    ensures p.Identifying? || p.Ending?
    ensures OnTheWay(c, Start(c), old(session.replies), old(session.asked), p, session.replies, session.asked)
  {
    hide OnTheWay, AfterEvidence, AfterCount, AfterFingerprint, AfterExecution;
    ghost var replies, asked := session.replies, session.asked;
    AtStart(c, Start(c), replies, asked);
    if RequestedTransport(c.insecure) != c.plan.transportPolicy {
      return RefusedFor("transport_policy_drift", None, None);
    }
    Step(c, Start(c), replies, asked, Connecting, session.replies, session.asked);
    var reply := session.Ask(Connecting);
    if !reply.ConnectedBy? {
      return RefusedFor(BrokenCode(reply), None, None);
    }
    if reply.transport != c.plan.transportPolicy {
      return RefusedFor("transport_policy_drift", None, None);
    }
    Step(c, Start(c), replies, asked, Beginning, session.replies, session.asked);
    reply := session.Ask(Beginning);
    if !reply.Fine? {
      return RefusedFor("apply_transaction_failed", None, None);
    }
    Step(c, Start(c), replies, asked, SettingTimeouts, session.replies, session.asked);
    reply := session.Ask(SettingTimeouts);
    if !reply.Fine? {
      return RefusedFor("timeout_configuration_failed", None, None);
    }
    Step(c, Start(c), replies, asked, Locking, session.replies, session.asked);
    reply := session.Ask(Locking);
    if !reply.Fine? {
      return RefusedFor("table_lock_failed", None, None);
    }
    p := Identifying;
  }

  lemma AtStart(c: Context, p: Phase, replies: seq<Reply>, asked: seq<Phase>)
    ensures OnTheWay(c, p, replies, asked, p, replies, asked)
  {
  }

  /** Compares the identity and the table with the plan (src/engine.rs:280-314). */
  method Revalidate(c: Context, session: Session) returns (p: Phase)
    modifies session
    ensures p.Ending? || p.Counting? || p.Fingerprinting? || p.Executing?
    ensures OnTheWay(c, Identifying, old(session.replies), old(session.asked), p, session.replies, session.asked)
  {
    hide OnTheWay, TableSchemaSha256, TablePolicyError, CanonicalTable, TargetSetOutcome;
    ghost var replies, asked := session.replies, session.asked;
    AtStart(c, Identifying, replies, asked);
    Step(c, Identifying, replies, asked, Identifying, session.replies, session.asked);
    var reply := session.Ask(Identifying);
    if !reply.IdentityIs? {
      return RefusedFor("identity_query_failed", None, None);
    }
    var identity := reply.identity;
    if identity != c.plan.preconditions.database {
      return RefusedFor("database_identity_drift", Some(identity), None);
    }
    Step(c, Identifying, replies, asked, Inspecting(identity), session.replies, session.asked);
    reply := session.Ask(Inspecting(identity));
    if !reply.EvidenceIs? {
      return RefusedFor(BrokenCode(reply), Some(identity), None);
    }
    var evidence := reply.evidence;
    var schemaHash := TableSchemaSha256(c.hash, evidence);
    if CanonicalTable(evidence) != c.plan.preconditions.canonicalTable
       || schemaHash != c.plan.preconditions.tableSchemaSha256 {
      return RefusedFor("table_schema_drift", Some(identity), Some(schemaHash));
    }
    var policy := TablePolicyError(evidence, c.analyzed.details.kind, c.plan.allowTriggers, c.plan.allowRowSecurity);
    if policy.Some? {
      return RefusedFor(policy.value.code, Some(identity), Some(schemaHash));
    }
    if c.analyzed.details.count.Some? {
      p := Counting(identity, schemaHash);
    } else {
      p := AfterCount(c, identity, schemaHash, c.analyzed.details.insertedRows);
    }
  }

  /** Compares the target rows with the plan (src/engine.rs:315-355). */
  method Recount(c: Context, session: Session, q: Phase) returns (p: Phase)
    requires q.Counting? || q.Fingerprinting?
    modifies session
    ensures p.Ending? || p.Executing?
    ensures OnTheWay(c, q, old(session.replies), old(session.asked), p, session.replies, session.asked)
  {
    hide OnTheWay, TableSchemaSha256, TablePolicyError, CanonicalTable, TargetSetOutcome, AfterEvidence;
    ghost var replies, asked := session.replies, session.asked;
    AtStart(c, q, replies, asked);
    var reply;
    var count: nat;
    var identity, schemaHash := q.identity, q.schemaHash;
    if q.Counting? {
      Step(c, q, replies, asked, q, session.replies, session.asked);
      reply := session.Ask(q);
      if !reply.CountIs? || reply.count < 0 {
        return RefusedFor("target_count_failed", Some(identity), Some(schemaHash));
      }
      count := reply.count;
      if count != c.plan.preconditions.targetCount {
        return RefusedFor("target_count_drift", Some(identity), Some(schemaHash));
      }
      if count > c.plan.limits.maxRows {
        return RefusedFor("row_budget_exceeded", Some(identity), Some(schemaHash));
      }
      if c.analyzed.details.targetRows.None? {
        return AfterFingerprint(c, identity, schemaHash, count,
                                TargetSetOutcome(c.hash, c.analyzed.normalized, None, count));
      }
    } else {
      count := q.count;
    }
    Step(c, q, replies, asked, Fingerprinting(identity, schemaHash, count), session.replies, session.asked);
    reply := session.Ask(Fingerprinting(identity, schemaHash, count));
    if !reply.RowsAre? {
      return RefusedFor("target_evidence_query_failed", Some(identity), Some(schemaHash));
    }
    var digest := TargetSetOutcome(c.hash, c.analyzed.normalized, Some(reply.rows), count);
    if digest.Err? {
      return RefusedFor(digest.error.code, Some(identity), Some(schemaHash));
    }
    if digest.value != c.plan.preconditions.targetSetSha256 {
      return RefusedFor("target_set_drift", Some(identity), Some(schemaHash));
    }
    p := Executing(identity, schemaHash, count);
  }

  /** Executes, compares the affected rows and commits (src/engine.rs:357-411). */
  method ExecuteAndCommit(c: Context, session: Session, q: Phase) returns (p: Phase)
    requires q.Executing?
    modifies session
    ensures p.Ending?
    ensures OnTheWay(c, q, old(session.replies), old(session.asked), p, session.replies, session.asked)
  {
    hide OnTheWay, AfterEvidence, AfterCount, AfterFingerprint, TargetSetOutcome;
    ghost var replies, asked := session.replies, session.asked;
    AtStart(c, q, replies, asked);
    var identity, schemaHash, count := q.identity, q.schemaHash, q.count;
    Step(c, q, replies, asked, q, session.replies, session.asked);
    var reply := session.Ask(q);
    if !reply.AffectedAre? {
      var failed := ReceiptResult(None, "statement_execution_failed", if reply.Broken? then reply.sqlstate else None,
                                  Some(identity), Some(schemaHash));
      Step(c, q, replies, asked, RollingBack(failed), session.replies, session.asked);
      var _ := session.Ask(RollingBack(failed));
      return Ending(RolledBack, failed);
    }
    var affected := reply.affected;
    if affected != count {
      var mismatch := ReceiptResult(Some(affected), "affected_rows_mismatch", None, Some(identity), Some(schemaHash));
      Step(c, q, replies, asked, RollingBack(mismatch), session.replies, session.asked);
      var _ := session.Ask(RollingBack(mismatch));
      return Ending(RolledBack, mismatch);
    }
    var applied := ReceiptResult(Some(affected), "applied", None, Some(identity), Some(schemaHash));
    Step(c, q, replies, asked, Committing(applied), session.replies, session.asked);
    reply := session.Ask(Committing(applied));
    if !reply.Fine? {
      return Ending(Uncertain, applied.(reasonCode := "commit_outcome_uncertain"));
    }
    p := Ending(Committed, applied);
  }
}

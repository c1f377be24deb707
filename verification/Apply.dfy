/** `apply_plan` as a whole (src/engine.rs:203-411). */
module Apply {
  import opened Wrappers
  import opened Json
  import opened Utf8
  import opened Codec
  import opened Integrity
  import opened Model
  import opened Receipt
  import opened Journal
  import opened Fingerprint
  import opened Db
  import opened Sql
  import opened Engine
  import opened PlanCreation
  import opened Outcome

  // ---------------------------------------------------------------- apply

  method Finish(c: Context, journal: ReceiptJournal, end: Phase, clock: Clock, disk: Disk) returns (r: Result<ApplyResult>)
    requires end.Ending?
    modifies journal.file
    ensures r == FinalOutcome(c.hash, journal.prepared, end, clock, disk)
    ensures r.Ok? ==>
              && end.state.IsFinal() && clock.At?
              && journal.file.synced == |journal.file.bytes|
              && journal.file.bytes
                 == old(journal.file.bytes)
                    + EventLine(FinalEvent(c.hash, journal.prepared, end.state, end.result, clock.now))
    ensures old(journal.file.bytes) <= journal.file.bytes
    ensures r.Err? ==>
              && journal.file.synced == old(journal.file.synced)
              && journal.file.bytes
                 == old(journal.file.bytes)
                    + (if end.state.IsFinal() && clock.At? then
                         Kept(EventLine(FinalEvent(c.hash, journal.prepared, end.state, end.result, clock.now)), disk)
                       else "")
    ensures end.state.IsFinal() ==> (r.Ok? <==> clock.At? && disk.Durable?)
    ensures r.Ok? ==>
              r.value == ApplyResult(journal.prepared.receiptId, end.state, journal.prepared.planSha256,
                                     end.result.affectedRows, end.result.reasonCode)
    ensures r.Err? && (end.state == Refused || end.state == RolledBack) ==>
              r.error == AppError(Io, if clock.BeforeEpoch? then "clock_before_epoch"
                                      else if clock.OutOfRange? then "clock_out_of_range"
                                      else "receipt_write_failed")
    ensures r.Err? && end.state == Committed ==> r.error == AppError(Contract, "committed_receipt_finalization_uncertain")
    ensures r.Err? && end.state == Uncertain ==> r.error == AppError(Contract, "commit_receipt_finalization_uncertain")
  {
    hide FinalEvent, EventLine;
    ghost var now := if clock.At? then clock.now else 0;
    FinalPlan(c.hash, journal.prepared, end.state, end.result, now);
    var event := journal.Finalize(c.hash, end.state, end.result, UnixMs(clock), disk);
    if event.Ok? {
      return Ok(ApplyResult(journal.prepared.receiptId, end.state, event.value.planSha256, end.result.affectedRows,
                            end.result.reasonCode));
    }
    if end.state == Committed {
      return Err(AppError(Contract, COMMITTED_UNRECORDED));
    }
    if end.state == Uncertain {
      return Err(AppError(Contract, UNCERTAIN_UNRECORDED));
    }
    r := Err(event.error);
  }

  lemma FinalPlan(hash: Hasher, prepared: ReceiptEvent, state: ReceiptState, result: ReceiptResult, now: U64)
    ensures FinalEvent(hash, prepared, state, result, now).planSha256 == prepared.planSha256
  {
    hide EventSha256;
  }

  /** Everything after the prepared event is durable: the calls, their order and the outcome. */
  method ApplyAfterReceipt(c: Context, journal: ReceiptJournal, session: Session, clock: Clock, disk: Disk)
    returns (r: Result<ApplyResult>)
    modifies session, journal.file
    ensures r == FinalOutcome(c.hash, journal.prepared, End(c, Start(c), old(session.replies)), clock, disk)
    ensures session.asked == old(session.asked) + Trace(c, Start(c), old(session.replies))
    ensures old(journal.file.bytes) <= journal.file.bytes
  {
    hide FinalOutcome, Advance, Start, OnTheWay;
    ghost var replies, asked := session.replies, session.asked;
    var phase := OpenLocked(c, session);
    if phase.Identifying? {
      ghost var here, now := session.replies, session.asked;
      phase := Revalidate(c, session);
      Further(c, Start(c), replies, asked, Identifying, here, now, phase, session.replies, session.asked);
    }
    if phase.Counting? || phase.Fingerprinting? {
      ghost var at, here, now := phase, session.replies, session.asked;
      phase := Recount(c, session, phase);
      Further(c, Start(c), replies, asked, at, here, now, phase, session.replies, session.asked);
    }
    if phase.Executing? {
      ghost var at, here, now := phase, session.replies, session.asked;
      phase := ExecuteAndCommit(c, session, phase);
      Further(c, Start(c), replies, asked, at, here, now, phase, session.replies, session.asked);
    }
    Arrived(c, Start(c), replies, asked, phase, session.replies, session.asked);
    r := Finish(c, journal, phase, clock, disk);
  }

  lemma Further(c: Context, p: Phase, r0: seq<Reply>, a0: seq<Phase>, q: Phase, r1: seq<Reply>, a1: seq<Phase>,
                z: Phase, r2: seq<Reply>, a2: seq<Phase>)
    requires OnTheWay(c, p, r0, a0, q, r1, a1) && OnTheWay(c, q, r1, a1, z, r2, a2)
    ensures OnTheWay(c, p, r0, a0, z, r2, a2)
  {
    hide End, Trace;
  }

  lemma Arrived(c: Context, p: Phase, before: seq<Reply>, asked: seq<Phase>, q: Phase, after: seq<Reply>, now: seq<Phase>)
    requires OnTheWay(c, p, before, asked, q, after, now) && q.Ending?
    ensures q == End(c, p, before) && now == asked + Trace(c, p, before)
  {
    hide Advance;
    assert now + [] == now;
  }

  /** What is checked before anything is written or connected. */
  function ApplyContext(hash: Hasher, g: Grammar, blank: string -> bool, planBytes: string, raw: string, insecure: bool,
                        clock: Clock): Result<Context>
  {
    var plan :- ReadPlan(hash, planBytes);
    if LimitsError(plan.limits).Some? then Err(LimitsError(plan.limits).value)
    else
      var analyzed :- AnalyzeSql(hash, g, blank, raw);
      if BindingError(plan, analyzed).Some? then Err(BindingError(plan, analyzed).value)
      else
        var now :- UnixMs(clock);
        if now > plan.expiresAtUnixMs then ContractError("plan_expired")
        else Ok(Context(hash, plan, analyzed, insecure))
  }

  // ---------------------------------------------------------------- when a run starts

  /** The plan is for this SQL file, field by field. */
  predicate Bound(plan: Plan, a: AnalyzedSql) {
    && plan.statementKind == a.details.kind && plan.requestedTable == a.requestedTable
    && plan.sqlFileSha256 == a.sqlFileSha256 && plan.normalizedSqlSha256 == a.normalizedSqlSha256
    && plan.countQuerySha256 == a.countQuerySha256 && plan.targetQuerySha256 == a.targetQuerySha256
  }

  /** Everything that an apply presupposes of its plan, its SQL file and the time. */
  predicate ApplyPasses(hash: Hasher, g: Grammar, blank: string -> bool, planBytes: string, raw: string, clock: Clock) {
    && |planBytes| <= 1_048_576 && PlanIn(planBytes).Some?
    && var plan := PlanIn(planBytes).value;
       && KnownVersion(plan.schemaVersion, plan.toolVersion, "dmlpact.plan.v1")
       && plan.planSha256 == Some(Sha256(hash, PlanContent(plan)))
       && LimitsInRange(plan.limits)
       && Plannable(g, blank, raw) && AnalyzeSql(hash, g, blank, raw).Ok?
       && Bound(plan, AnalyzeSql(hash, g, blank, raw).value)
       && plan.preconditions.targetCount <= plan.limits.maxRows
       && clock.At? && clock.now <= plan.expiresAtUnixMs
  }

  /** An apply goes on exactly when all of this holds; then it works with the plan of the file, the SQL and the option. */
  lemma ContextExactly(hash: Hasher, g: Grammar, blank: string -> bool, planBytes: string, raw: string, insecure: bool,
                       clock: Clock)
    ensures ApplyContext(hash, g, blank, planBytes, raw, insecure, clock).Ok?
       <==> ApplyPasses(hash, g, blank, planBytes, raw, clock)
    ensures ApplyPasses(hash, g, blank, planBytes, raw, clock) ==>
              ApplyContext(hash, g, blank, planBytes, raw, insecure, clock)
              == Ok(Context(hash, PlanIn(planBytes).value, AnalyzeSql(hash, g, blank, raw).value, insecure))
  {
    hide AnalyzeSql, Plannable, PlanContent, Sha256, PlanIn, ReadPlan, ReadFindings;
    var error := AppError(Io, "");
    if PlanIn(planBytes).Some? {
      ReadExactly(hash, planBytes, PlanIn(planBytes).value, error);
    }
    if ReadPlan(hash, planBytes).Ok? {
      ReadExactly(hash, planBytes, ReadPlan(hash, planBytes).value, error);
    }
    AnalysisExactly(hash, g, blank, raw);
  }

  function BindingFindings(plan: Plan, a: AnalyzedSql): seq<Option<AppError>> {
    [ If(!Bound(plan, a), Contract, "plan_sql_mismatch"),
      If(plan.preconditions.targetCount > plan.limits.maxRows, Contract, "plan_budget_invalid")]
  }

  function ClockFindings(clock: Clock): seq<Option<AppError>> {
    [If(clock.BeforeEpoch?, Io, "clock_before_epoch"), If(clock.OutOfRange?, Io, "clock_out_of_range")]
  }

  /** The checks before the receipt in their order. */
  function ContextFindings(hash: Hasher, g: Grammar, blank: string -> bool, planBytes: string, raw: string, clock: Clock)
    : seq<Option<AppError>>
  {
    ReadFindings(hash, planBytes)
    + match PlanIn(planBytes)
      case None => []
      case Some(plan) =>
        LimitFindings(plan.limits) + FileFindings(g, blank, raw)
        + (match AnalyzeSql(hash, g, blank, raw) case Ok(a) => BindingFindings(plan, a) case Err(_) => [])
        + ClockFindings(clock)
        + [If(clock.At? && clock.now > plan.expiresAtUnixMs, Contract, "plan_expired")]
  }

  /** The checks of the receipt path in their order. */
  function CreateFindings(clock: Clock, free: bool, disk: Disk): seq<Option<AppError>> {
    ClockFindings(clock)
    + [If(!free, Io, "receipt_create_failed"), If(disk.Torn?, Io, "receipt_write_failed")]
  }

  lemma BindingReport(plan: Plan, a: AnalyzedSql)
    ensures Report(BindingFindings(plan, a), 0) == BindingError(plan, a)
  {
    var f := BindingFindings(plan, a);
    var _ := [Report(f, 1), Report(f, 2)];
  }

  lemma ClockReport(clock: Clock)
    ensures Report(ClockFindings(clock), 0) == ErrorOf(UnixMs(clock))
  {
    var f := ClockFindings(clock);
    var _ := [Report(f, 1), Report(f, 2)];
  }

  lemma ContextReport(hash: Hasher, g: Grammar, blank: string -> bool, planBytes: string, raw: string, insecure: bool,
                      clock: Clock)
    ensures Report(ContextFindings(hash, g, blank, planBytes, raw, clock), 0)
         == ErrorOf(ApplyContext(hash, g, blank, planBytes, raw, insecure, clock))
  {
    hide ReadFindings, LimitFindings, FileFindings, BindingFindings, ClockFindings, ReadPlan, AnalyzeSql, BindingError, LimitsError;
    ReadReport(hash, planBytes);
    var read := ReadFindings(hash, planBytes);
    match PlanIn(planBytes) {
      case None => ReportAppend(read, []);
      case Some(plan) =>
        var limits, file, time := LimitFindings(plan.limits), FileFindings(g, blank, raw), ClockFindings(clock);
        var bound := match AnalyzeSql(hash, g, blank, raw) case Ok(a) => BindingFindings(plan, a) case Err(_) => [];
        var late := [If(clock.At? && clock.now > plan.expiresAtUnixMs, Contract, "plan_expired")];
        var _ := [Report(late, 1)];
        LimitReport(plan.limits);
        AnalysisReport(hash, g, blank, raw);
        if AnalyzeSql(hash, g, blank, raw).Ok? {
          BindingReport(plan, AnalyzeSql(hash, g, blank, raw).value);
        }
        ClockReport(clock);
        ReportAppend(read, limits + file + bound + time + late);
        ReportAppend(limits + file + bound + time, late);
        ReportAppend(limits + file + bound, time);
        ReportAppend(limits + file, bound);
        ReportAppend(limits, file);
    }
  }

  lemma CreateReport(hash: Hasher, plan: Plan, sql: string, clock: Clock, free: bool, disk: Disk)
    requires VerifiedPlanSha256(hash, plan).Ok?
    ensures Report(CreateFindings(clock, free, disk), 0) == ErrorOf(CreateOutcome(hash, plan, sql, UnixMs(clock), free, disk))
  {
    hide ClockFindings, VerifiedPlanSha256, PreparedFor;
    ClockReport(clock);
    var rest := [If(!free, Io, "receipt_create_failed"), If(disk.Torn?, Io, "receipt_write_failed")];
    var _ := [Report(rest, 1), Report(rest, 2)];
    ReportAppend(ClockFindings(clock), rest);
  }

  /** A run that does not get to its first call ends with the error of the first check that fails. */
  lemma StartErrorExactly(hash: Hasher, g: Grammar, blank: string -> bool, planBytes: string, raw: string, insecure: bool,
                          clocks: (Clock, Clock), free: bool, disk: Disk, error: AppError)
    ensures Started(ApplyContext(hash, g, blank, planBytes, raw, insecure, clocks.0), clocks.1, free, disk) == Err(error)
       <==> Reports(ContextFindings(hash, g, blank, planBytes, raw, clocks.0) + CreateFindings(clocks.1, free, disk), error)
  {
    hide ContextFindings, CreateFindings, ReadPlan, AnalyzeSql, VerifiedPlanSha256, CreateOutcome, Reports, LimitsError, BindingError;
    var check := ApplyContext(hash, g, blank, planBytes, raw, insecure, clocks.0);
    var context, create := ContextFindings(hash, g, blank, planBytes, raw, clocks.0), CreateFindings(clocks.1, free, disk);
    ContextReport(hash, g, blank, planBytes, raw, insecure, clocks.0);
    ReportAppend(context, create);
    ReportIs(context + create, error);
    if check.Ok? {
      PlanVerified(hash, planBytes);
      CreateReport(check.value.hash, check.value.plan, check.value.analyzed.sqlFileSha256, clocks.1, free, disk);
    }
  }

  /** How far a run gets before its first call: to a durable prepared event, or to an error. */
  function Started(check: Result<Context>, clock: Clock, free: bool, disk: Disk): Result<(Context, ReceiptEvent)> {
    var c :- check;
    var prepared :- CreateOutcome(c.hash, c.plan, c.analyzed.sqlFileSha256, UnixMs(clock), free, disk);
    Ok((c, prepared))
  }

  /**
   A failed check leaves the file and the database alone; the database is asked nothing until the prepared
   event is durable; then the outcome is the automaton's; and the result tells whether a commit was attempted.
   */
  method ApplyPlan(hash: Hasher, g: Grammar, blank: string -> bool, planBytes: string, raw: string, insecure: bool,
                   clocks: (Clock, Clock, Clock), file: ReceiptFile, openable: bool, disks: (Disk, Disk), session: Session)
    returns (r: Result<ApplyResult>)
    requires file.present || file.bytes == ""
    modifies file, session
    ensures var check := ApplyContext(hash, g, blank, planBytes, raw, insecure, clocks.0);
      var start := Started(check, clocks.1, openable && !old(file.present), disks.0);
      if start.Err? then
        && r == Err(start.error) && session.asked == old(session.asked)
        && (check.Err? || old(file.present) ==> file.bytes == old(file.bytes))
      else
        var (c, prepared) := start.value;
        && r == FinalOutcome(hash, prepared, End(c, Start(c), old(session.replies)), clocks.2, disks.1)
        && session.asked == old(session.asked) + Trace(c, Start(c), old(session.replies))
        && EventLine(prepared) <= file.bytes
    ensures old(session.asked) <= session.asked
    ensures !ApplyPasses(hash, g, blank, planBytes, raw, clocks.0) ==>
              r.Err? && session.asked == old(session.asked) && file.bytes == old(file.bytes)
    ensures Attempted(session.asked[|old(session.asked)|..]) <==> TellsOfAttempt(r)
    ensures CommitAnswered(session.asked[|old(session.asked)|..], old(session.replies), true) <==> SaysCommitted(r)
    ensures CommitAnswered(session.asked[|old(session.asked)|..], old(session.replies), false) <==> SaysUncertain(r)
  {
    hide *;
    var check := ApplyContext(hash, g, blank, planBytes, raw, insecure, clocks.0);
    ghost var start := Started(check, clocks.1, openable && !file.present, disks.0);
    ghost var asked, replies := session.asked, session.replies;
    StartedWith(check, clocks.1, openable && !file.present, disks.0);
    assert asked[|asked|..] == [];
    ContextExactly(hash, g, blank, planBytes, raw, insecure, clocks.0);
    NothingAsked(replies);
    if check.Err? {
      EarlyErrors(hash, g, blank, planBytes, raw, insecure, clocks, openable && !file.present, disks.0);
      return Err(check.error);
    }
    var c := check.value;
    ContextHash(hash, g, blank, planBytes, raw, insecure, clocks.0);
    var journal := ReceiptJournal.Create(hash, file, c.plan, c.analyzed.sqlFileSha256, UnixMs(clocks.1), openable, disks.0);
    if journal.Err? {
      EarlyErrors(hash, g, blank, planBytes, raw, insecure, clocks, openable && !old(file.present), disks.0);
      return Err(journal.error);
    }
    r := ApplyAfterReceipt(c, journal.value, session, clocks.2, disks.1);
    OutcomeClassification(c, start.value.1, replies, clocks.2, disks.1);
    ResultIsTruthful(c, start.value.1, replies, clocks.2, disks.1);
    assert (asked + Trace(c, Start(c), replies))[|asked|..] == Trace(c, Start(c), replies);
  }

  lemma NothingAsked(replies: seq<Reply>)
    ensures !Attempted([]) && !CommitAnswered([], replies, true) && !CommitAnswered([], replies, false)
    ensures forall r: Result<ApplyResult> :: TellsOfAttempt(r) <==> SaysCommitted(r) || SaysUncertain(r)
  {
  }

  /** The two stages of the start. */
  lemma StartedWith(check: Result<Context>, clock: Clock, free: bool, disk: Disk)
    ensures check.Err? ==> Started(check, clock, free, disk) == Err(check.error)
    ensures check.Ok? ==>
      var c := check.value;
      var o := CreateOutcome(c.hash, c.plan, c.analyzed.sqlFileSha256, UnixMs(clock), free, disk);
      Started(check, clock, free, disk) == if o.Ok? then Ok((c, o.value)) else Err(o.error)
  {
    hide CreateOutcome;
  }

  lemma ContextHash(hash: Hasher, g: Grammar, blank: string -> bool, planBytes: string, raw: string, insecure: bool,
                    clock: Clock)
    ensures var check := ApplyContext(hash, g, blank, planBytes, raw, insecure, clock);
      check.Ok? ==> check.value.hash == hash
  {
    hide ReadPlan, AnalyzeSql, LimitsError, BindingError;
  }

  lemma PlanVerified(hash: Hasher, planBytes: string)
    ensures ReadPlan(hash, planBytes).Ok? ==> VerifiedPlanSha256(hash, ReadPlan(hash, planBytes).value).Ok?
  {
    hide VerifiedPlanSha256;
  }

  // ---------------------------------------------------------------- errors before the receipt

  /** An error that cannot be mistaken for a demand to reconcile. */
  predicate Early<T>(r: Result<T>) {
    r.Err? ==> |r.error.code| < |UNCERTAIN_UNRECORDED|
  }

  lemma ReadPlanIsEarly(hash: Hasher, bytes: string)
    ensures Early(ReadPlan(hash, bytes))
    ensures forall plan :: Early(VerifiedPlanSha256(hash, plan))
  {
    hide DecodePlan, ParseDocument, PlanContent, Sha256, Utf8Valid;
  }

  lemma AnalysisIsEarly(hash: Hasher, g: Grammar, blank: string -> bool, raw: string)
    ensures Early(AnalyzeSql(hash, g, blank, raw))
  {
    hide FirstUnsafeOf, StatementExpressions, Sha256, CountText, TargetText;
  }

  /** No error before the receipt is one of the two that demand reconciliation. */
  lemma EarlyErrors(hash: Hasher, g: Grammar, blank: string -> bool, planBytes: string, raw: string, insecure: bool,
                    clocks: (Clock, Clock, Clock), free: bool, disk: Disk)
    ensures var start := Started(ApplyContext(hash, g, blank, planBytes, raw, insecure, clocks.0), clocks.1, free, disk);
      start.Err? ==> !SaysCommitted(Err(start.error)) && !SaysUncertain(Err(start.error))
  {
    hide ReadPlan, AnalyzeSql, VerifiedPlanSha256, PreparedFor;
    ReadPlanIsEarly(hash, planBytes);
    AnalysisIsEarly(hash, g, blank, raw);
    var check := ApplyContext(hash, g, blank, planBytes, raw, insecure, clocks.0);
    assert Early(check);
    assert check.Ok? ==> Early(VerifiedPlanSha256(hash, check.value.plan)) && check.value.hash == hash;
    assert |UNCERTAIN_UNRECORDED| == 37 && |COMMITTED_UNRECORDED| == 40;
  }
}

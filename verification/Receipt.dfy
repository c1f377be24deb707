/** Seals, receipt events and the offline verifier (the pure parts of src/receipt.rs). */
module Receipt {
  import opened Wrappers
  import opened Json
  import opened Utf8
  import opened Integrity
  import opened Model
  import opened Codec

  const MAX_PLAN_BYTES := 1_048_576
  const MAX_RECEIPT_BYTES := 2_097_152

  function ContractError<T>(code: string): Result<T> {
    Err(AppError(Contract, code))
  }

  predicate SupportedTool(version: string) {
    version == TOOL_VERSION || version == "0.1.0" || version == "0.2.0"
  }

  // ---------------------------------------------------------------- plans

  /** The bytes under the seal of a plan. */
  function PlanContent(plan: Plan): string {
    Print(PlanJson(plan.(planSha256 := None)), Compact)
  }

  function VerifiedPlanSha256(hash: Hasher, plan: Plan): Result<string> {
    if plan.schemaVersion != PLAN_SCHEMA_VERSION || !SupportedTool(plan.toolVersion) then
      ContractError("plan_version_unsupported")
    else if plan.planSha256.None? then ContractError("plan_hash_missing")
    else
      var actual := Sha256(hash, PlanContent(plan));
      if plan.planSha256.value != actual then ContractError("plan_hash_mismatch") else Ok(actual)
  }

  /** The bytes of a plan file. */
  function PlanFile(plan: Plan): string {
    Print(PlanJson(plan), Pretty(0)) + "\n"
  }

  function ReadPlan(hash: Hasher, bytes: string): Result<Plan> {
    if |bytes| > MAX_PLAN_BYTES then ContractError("plan_file_invalid")
    else if !Utf8Valid(bytes) || ParseDocument(bytes).None? || DecodePlan(ParseDocument(bytes).value).None? then
      ContractError("plan_json_invalid")
    else
      var plan := DecodePlan(ParseDocument(bytes).value).value;
      var _ :- VerifiedPlanSha256(hash, plan);
      Ok(plan)
  }

  // ---------------------------------------------------------------- events

  /** The bytes under the hash of an event. */
  function EventContent(e: ReceiptEvent): string {
    Print(EventJson(e.(eventSha256 := None)), Compact)
  }

  function EventSha256(hash: Hasher, e: ReceiptEvent): string {
    Sha256(hash, EventContent(e))
  }

  function Sealed(hash: Hasher, e: ReceiptEvent): ReceiptEvent {
    e.(eventSha256 := Some(EventSha256(hash, e)))
  }

  /** The first event of a receipt (src/receipt.rs:28-46). */
  function PreparedEvent(hash: Hasher, planSha256: string, sqlSha256: string, receiptId: string, now: U64): ReceiptEvent {
    Sealed(hash, ReceiptEvent(RECEIPT_SCHEMA_VERSION, TOOL_VERSION, receiptId, 1, now, planSha256, sqlSha256, None,
                              Prepared, None, None))
  }

  /** The event that continues `prepared` (src/receipt.rs:79-92). */
  function FinalEvent(hash: Hasher, prepared: ReceiptEvent, state: ReceiptState, result: ReceiptResult, now: U64): ReceiptEvent {
    Sealed(hash, ReceiptEvent(RECEIPT_SCHEMA_VERSION, TOOL_VERSION, prepared.receiptId, 2, now, prepared.planSha256,
                              prepared.sqlFileSha256, prepared.eventSha256, state, Some(result), None))
  }

  function EventText(e: ReceiptEvent): string {
    Print(EventJson(e), Compact)
  }

  function EventLine(e: ReceiptEvent): string {
    EventText(e) + "\n"
  }

  // ---------------------------------------------------------------- verification

  /** The position of the first line feed, or the length. */
  function LineEnd(s: string): (n: nat)
    ensures n <= |s|
    ensures n < |s| ==> s[n] == '\n'
    ensures forall i | 0 <= i < n :: s[i] != '\n'
  {
    if s == "" || s[0] == '\n' then 0 else 1 + LineEnd(s[1..])
  }

  function DropReturn(s: string): string {
    if s != "" && s[|s| - 1] == '\r' then s[..|s| - 1] else s
  }

  /** `str::lines`: a carriage return goes with the line feed after it, and the last line needs none. */
  function Lines(s: string): seq<string>
    decreases |s|
  {
    if s == "" then []
    else
      var n := LineEnd(s);
      if n == |s| then [s] else [DropReturn(s[..n])] + Lines(s[n + 1..])
  }

  /** The length of the Unicode white space character in front of a UTF-8 text, or zero. */
  function WhiteLength(s: string): (n: nat)
    ensures n <= |s|
  {
    if Between(s, 0, 9, 13) || Between(s, 0, 32, 32) then 1
    else if Between(s, 0, 0xC2, 0xC2) && (Between(s, 1, 0x85, 0x85) || Between(s, 1, 0xA0, 0xA0)) then 2
    else if Between(s, 0, 0xE1, 0xE1) && Between(s, 1, 0x9A, 0x9A) && Between(s, 2, 0x80, 0x80) then 3
    else if Between(s, 0, 0xE2, 0xE2) && Between(s, 1, 0x80, 0x80)
            && (Between(s, 2, 0x80, 0x8A) || Between(s, 2, 0xA8, 0xA9) || Between(s, 2, 0xAF, 0xAF)) then 3
    else if Between(s, 0, 0xE2, 0xE2) && Between(s, 1, 0x81, 0x81) && Between(s, 2, 0x9F, 0x9F) then 3
    else if Between(s, 0, 0xE3, 0xE3) && Between(s, 1, 0x80, 0x80) && Between(s, 2, 0x80, 0x80) then 3
    else 0
  }

  predicate Blank(s: string)
    decreases |s|
  {
    s == "" || (WhiteLength(s) > 0 && Blank(s[WhiteLength(s)..]))
  }

  function ReadEvent(line: string): Option<ReceiptEvent> {
    var v :- ParseDocument(line);
    DecodeEvent(v)
  }

  function ReadEvents(lines: seq<string>): (r: Option<seq<ReceiptEvent>>)
    ensures r.Some? ==> |r.value| == |lines|
    ensures r.Some? <==> forall i | 0 <= i < |lines| :: ReadEvent(lines[i]).Some?
    ensures r.Some? ==> forall i | 0 <= i < |lines| :: ReadEvent(lines[i]) == Some(r.value[i])
  {
    if lines == [] then Some([])
    else
      var e :- ReadEvent(lines[0]);
      var rest :- ReadEvents(lines[1..]);
      Some([e] + rest)
  }

  /** The error of an event on its own, if it has one. */
  function EventError(hash: Hasher, e: ReceiptEvent): Option<AppError> {
    if e.schemaVersion != RECEIPT_SCHEMA_VERSION || !SupportedTool(e.toolVersion) then
      Some(AppError(Contract, "receipt_version_unsupported"))
    else if e.eventSha256.None? then Some(AppError(Contract, "receipt_event_hash_missing"))
    else if e.eventSha256.value != EventSha256(hash, e) then Some(AppError(Contract, "receipt_event_hash_mismatch"))
    else None
  }

  predicate IsPreparedEvent(e: ReceiptEvent) {
    e.sequence == 1 && e.state == Prepared && e.previousEventSha256.None? && e.result.None?
  }

  predicate Continues(e: ReceiptEvent, prepared: ReceiptEvent) {
    && e.sequence == 2 && e.state.IsFinal() && e.result.Some?
    && e.receiptId == prepared.receiptId
    && e.planSha256 == prepared.planSha256
    && e.sqlFileSha256 == prepared.sqlFileSha256
    && e.previousEventSha256 == prepared.eventSha256
    && e.timestampUnixMs >= prepared.timestampUnixMs
  }

  function VerifyEvents(hash: Hasher, events: seq<ReceiptEvent>): Result<ReceiptVerification>
    requires 1 <= |events| <= 2
  {
    var prepared := events[0];
    if EventError(hash, prepared).Some? then Err(EventError(hash, prepared).value)
    else if !IsPreparedEvent(prepared) then ContractError("receipt_prepared_invalid")
    else if |events| == 2 && EventError(hash, events[1]).Some? then Err(EventError(hash, events[1]).value)
    else if |events| == 2 && !Continues(events[1], prepared) then ContractError("receipt_chain_invalid")
    else
      var last := events[|events| - 1];
      if last.eventSha256.None? then ContractError("receipt_event_hash_missing")
      else
        Ok(ReceiptVerification(prepared.receiptId, |events| == 2, |events|, last.state, prepared.planSha256,
                               last.eventSha256.value))
  }

  function VerifyLines(hash: Hasher, lines: seq<string>): Result<ReceiptVerification> {
    if !(1 <= |lines| <= 2) || exists i | 0 <= i < |lines| :: Blank(lines[i]) then
      ContractError("receipt_event_count_invalid")
    else
      var events := ReadEvents(lines);
      if events.None? then ContractError("receipt_event_invalid") else VerifyEvents(hash, events.value)
  }

  function VerifyReceipt(hash: Hasher, bytes: string): Result<ReceiptVerification> {
    if |bytes| > MAX_RECEIPT_BYTES then ContractError("receipt_file_invalid")
    else if !Utf8Valid(bytes) then ContractError("receipt_not_utf8")
    else VerifyLines(hash, Lines(bytes))
  }

  /** The events of a file that the verifier accepts. */
  function Events(hash: Hasher, bytes: string): (events: seq<ReceiptEvent>)
    requires VerifyReceipt(hash, bytes).Ok?
    ensures 1 <= |events| <= 2 && VerifyReceipt(hash, bytes) == VerifyEvents(hash, events)
  {
    ReadEvents(Lines(bytes)).value
  }

  // ---------------------------------------------------------------- what is refused, and why

  predicate KnownVersion(schema: string, tool: string, expected: string) {
    schema == expected && (tool == "0.1.0" || tool == "0.2.0" || tool == "0.3.0")
  }

  /** The checks of a plan's seal in their order. */
  function SealFindings(hash: Hasher, p: Plan): seq<Option<AppError>> {
    [ If(!KnownVersion(p.schemaVersion, p.toolVersion, "dmlpact.plan.v1"), Contract, "plan_version_unsupported"),
      If(p.planSha256.None?, Contract, "plan_hash_missing"),
      If(p.planSha256.Some? && p.planSha256.value != Sha256(hash, PlanContent(p)), Contract, "plan_hash_mismatch")]
  }

  /** The plan that a file holds. */
  function PlanIn(bytes: string): Option<Plan> {
    if Utf8Valid(bytes) && ParseDocument(bytes).Some? then DecodePlan(ParseDocument(bytes).value) else None
  }

  /** The checks of a plan file in their order. */
  function ReadFindings(hash: Hasher, bytes: string): seq<Option<AppError>> {
    [ If(|bytes| > 1_048_576, Contract, "plan_file_invalid"),
      If(PlanIn(bytes).None?, Contract, "plan_json_invalid")]
    + if PlanIn(bytes).Some? then SealFindings(hash, PlanIn(bytes).value) else []
  }

  lemma SealReport(hash: Hasher, p: Plan)
    ensures Report(SealFindings(hash, p), 0) == ErrorOf(VerifiedPlanSha256(hash, p))
  {
    hide Sha256, PlanContent;
    var f := SealFindings(hash, p);
    var _ := [Report(f, 1), Report(f, 2), Report(f, 3)];
  }

  lemma ReadReport(hash: Hasher, bytes: string)
    ensures Report(ReadFindings(hash, bytes), 0) == ErrorOf(ReadPlan(hash, bytes))
    ensures ReadPlan(hash, bytes).Ok? ==> PlanIn(bytes) == Some(ReadPlan(hash, bytes).value)
  {
    hide SealFindings, VerifiedPlanSha256, Utf8Valid, ParseDocument, DecodePlan;
    var f := ReadFindings(hash, bytes);
    var _ := [Report(f, 1), Report(f, 2)];
    if PlanIn(bytes).Some? {
      SealReport(hash, PlanIn(bytes).value);
      ReportAppend(f[..2], SealFindings(hash, PlanIn(bytes).value));
      var _ := [Report(f[..2], 1), Report(f[..2], 2)];
      assert f == f[..2] + SealFindings(hash, PlanIn(bytes).value);
    }
  }

  /**
   A plan file is read exactly when it is at most 1 MiB of a strict plan document of a known version that
   carries the digest of its own contents; otherwise the first check that fails gives the error.
   */
  lemma ReadExactly(hash: Hasher, bytes: string, plan: Plan, error: AppError)
    ensures ReadPlan(hash, bytes) == Ok(plan) <==>
            && |bytes| <= 1_048_576 && PlanIn(bytes) == Some(plan)
            && KnownVersion(plan.schemaVersion, plan.toolVersion, "dmlpact.plan.v1")
            && plan.planSha256 == Some(Sha256(hash, PlanContent(plan)))
    ensures ReadPlan(hash, bytes) == Err(error) <==> Reports(ReadFindings(hash, bytes), error)
  {
    hide Utf8Valid, ParseDocument, DecodePlan, PlanContent, Sha256, ReadFindings, Reports;
    ReadReport(hash, bytes);
    ReportIs(ReadFindings(hash, bytes), error);
  }

  /** The checks of one event in their order. */
  function EventFindings(hash: Hasher, e: ReceiptEvent): seq<Option<AppError>> {
    [ If(!KnownVersion(e.schemaVersion, e.toolVersion, "dmlpact.receipt-event.v1"), Contract, "receipt_version_unsupported"),
      If(e.eventSha256.None?, Contract, "receipt_event_hash_missing"),
      If(e.eventSha256.Some? && e.eventSha256.value != EventSha256(hash, e), Contract, "receipt_event_hash_mismatch")]
  }

  /** The checks of the events of a file in their order. */
  function ChainFindings(hash: Hasher, events: seq<ReceiptEvent>): seq<Option<AppError>>
    requires 1 <= |events| <= 2
  {
    var e := events[0];
    EventFindings(hash, e)
    + [If(!(e.sequence == 1 && e.state == Prepared && e.previousEventSha256.None? && e.result.None?), Contract,
          "receipt_prepared_invalid")]
    + if |events| == 1 then []
      else
        var f := events[1];
        EventFindings(hash, f)
        + [If(!(&& f.sequence == 2 && f.state != Prepared && f.result.Some? && f.receiptId == e.receiptId
                && f.planSha256 == e.planSha256 && f.sqlFileSha256 == e.sqlFileSha256
                && f.previousEventSha256 == e.eventSha256 && e.timestampUnixMs <= f.timestampUnixMs), Contract,
              "receipt_chain_invalid")]
  }

  /** The checks of a receipt file in their order. */
  function ReceiptFindings(hash: Hasher, bytes: string): seq<Option<AppError>> {
    var lines := Lines(bytes);
    [ If(|bytes| > 2_097_152, Contract, "receipt_file_invalid"),
      If(!Utf8Valid(bytes), Contract, "receipt_not_utf8"),
      If((|lines| != 1 && |lines| != 2) || exists i | 0 <= i < |lines| :: Blank(lines[i]), Contract,
         "receipt_event_count_invalid"),
      If(ReadEvents(lines).None?, Contract, "receipt_event_invalid")]
    + if 1 <= |lines| <= 2 && ReadEvents(lines).Some? then ChainFindings(hash, ReadEvents(lines).value) else []
  }

  lemma EventReport(hash: Hasher, e: ReceiptEvent)
    ensures Report(EventFindings(hash, e), 0) == EventError(hash, e)
  {
    hide EventSha256;
    var f := EventFindings(hash, e);
    var _ := [Report(f, 1), Report(f, 2), Report(f, 3)];
  }

  lemma ChainReport(hash: Hasher, events: seq<ReceiptEvent>)
    requires 1 <= |events| <= 2
    ensures Report(ChainFindings(hash, events), 0) == ErrorOf(VerifyEvents(hash, events))
  {
    hide EventFindings, EventSha256;
    var all, first := ChainFindings(hash, events), EventFindings(hash, events[0]);
    var prepared := all[|first|..|first| + 1];
    var _ := Report(prepared, 1);
    EventReport(hash, events[0]);
    ReportAppend(first, prepared);
    if |events| == 2 {
      var second := EventFindings(hash, events[1]);
      var chain := [all[|all| - 1]];
      var _ := Report(chain, 1);
      EventReport(hash, events[1]);
      ReportAppend(second, chain);
      ReportAppend(first + prepared, second + chain);
      assert all == first + prepared + (second + chain);
    } else {
      assert all == first + prepared;
    }
  }

  lemma ReceiptReport(hash: Hasher, bytes: string)
    ensures Report(ReceiptFindings(hash, bytes), 0) == ErrorOf(VerifyReceipt(hash, bytes))
  {
    hide ChainFindings, VerifyEvents, Utf8Valid, Lines, Blank, ReadEvents;
    var f, lines := ReceiptFindings(hash, bytes), Lines(bytes);
    var _ := [Report(f, 1), Report(f, 2), Report(f, 3), Report(f, 4)];
    if 1 <= |lines| <= 2 && ReadEvents(lines).Some? {
      var chain := ChainFindings(hash, ReadEvents(lines).value);
      ChainReport(hash, ReadEvents(lines).value);
      ReportAppend(f[..4], chain);
      var _ := [Report(f[..4], 1), Report(f[..4], 2), Report(f[..4], 3), Report(f[..4], 4)];
      assert f == f[..4] + chain;
    }
  }

  /** A receipt that is not accepted is refused for the first of these reasons. */
  lemma ReceiptErrorExactly(hash: Hasher, bytes: string, error: AppError)
    ensures VerifyReceipt(hash, bytes) == Err(error) <==> Reports(ReceiptFindings(hash, bytes), error)
  {
    hide ReceiptFindings, VerifyReceipt, Reports;
    ReceiptReport(hash, bytes);
    ReportIs(ReceiptFindings(hash, bytes), error);
  }
}

/** The receipt file and the two places that write to it (src/receipt.rs:21-104 and 352-369). */
module Journal {
  import opened Wrappers
  import opened Json
  import opened Integrity
  import opened Model
  import opened Receipt

  /** What the disk does with one append: all of it durably, or some of it with an error. */
  datatype Disk = Durable | Torn(kept: nat)

  /** A path in the file system, with the length up to which its bytes survive a power failure. */
  class ReceiptFile {
    var present: bool
    var bytes: string
    var synced: nat

    constructor ()
      ensures !present && bytes == "" && synced == 0
    {
      present, bytes, synced := false, "", 0;
    }
  }

  function Kept(text: string, disk: Disk): string {
    if disk.Durable? || disk.kept >= |text| then text else text[..disk.kept]
  }

  function WriteError<T>(): Result<T> {
    Err(AppError(Io, "receipt_write_failed"))
  }

  /** Appends one line.  Only a durable append succeeds; a failed one may leave any part of the line. */
  method WriteEvent(file: ReceiptFile, event: ReceiptEvent, disk: Disk) returns (r: Result<()>)
    modifies file
    ensures file.present == old(file.present)
    ensures file.bytes == old(file.bytes) + Kept(EventLine(event), disk)
    ensures disk.Durable? ==> r == Ok(()) && file.synced == |file.bytes|
    ensures disk.Torn? ==> r == WriteError() && file.synced == old(file.synced)
  {
    var bytes := Print(EventJson(event), Compact);
    bytes := bytes + "\n";
    file.bytes := file.bytes + Kept(bytes, disk);
    if disk.Torn? {
      return WriteError();
    }
    file.synced := |file.bytes|;
    r := Ok(());
  }

  function ReceiptId(hash: Hasher, planSha256: string, sqlSha256: string, now: U64): string {
    Sha256(hash, planSha256 + ":" + sqlSha256 + ":" + Decimal(now))
  }

  /** The prepared event that a run at `now` writes for a verified plan. */
  function PreparedFor(hash: Hasher, planSha256: string, sqlSha256: string, now: U64): ReceiptEvent {
    PreparedEvent(hash, planSha256, sqlSha256, ReceiptId(hash, planSha256, sqlSha256, now), now)
  }

  /** Creation: the prepared event, or the first obstacle: the seal, the clock, the path, the disk. */
  function CreateOutcome(hash: Hasher, plan: Plan, sqlSha256: string, clock: Result<U64>, free: bool, disk: Disk)
    : Result<ReceiptEvent>
  {
    var verified :- VerifiedPlanSha256(hash, plan);
    var now :- clock;
    if !free then Err(AppError(Io, "receipt_create_failed"))
    else if disk.Torn? then WriteError()
    else Ok(PreparedFor(hash, verified, sqlSha256, now))
  }

  /** Finalization succeeds exactly for a terminal state, a readable clock and a durable append. */
  function FinalizeOutcome(hash: Hasher, prepared: ReceiptEvent, state: ReceiptState, result: ReceiptResult,
                           clock: Result<U64>, disk: Disk): Result<ReceiptEvent>
  {
    if !state.IsFinal() then ContractError("receipt_final_state_invalid")
    else if clock.Err? then Err(clock.error)
    else if disk.Torn? then WriteError()
    else Ok(FinalEvent(hash, prepared, state, result, clock.value))
  }

  class ReceiptJournal {
    const file: ReceiptFile
    const prepared: ReceiptEvent

    constructor (file: ReceiptFile, prepared: ReceiptEvent)
      ensures this.file == file && this.prepared == prepared
    {
      this.file, this.prepared := file, prepared;
    }

    /**
     Success means that the whole prepared event, and nothing else, is durable in a new file.  A failure leaves
     an existing file alone; if the append itself fails, the new file stays with the part of the line that was
     written, not synced.
     */
    static method Create(hash: Hasher, file: ReceiptFile, plan: Plan, sqlFileSha256: string,
                         clock: Result<U64>, openable: bool, disk: Disk) returns (r: Result<ReceiptJournal>)
      requires file.present || file.bytes == ""
      modifies file
      ensures var o := CreateOutcome(hash, plan, sqlFileSha256, clock, openable && !old(file.present), disk);
        if o.Err? then
          && r == Err(o.error) && file.synced == old(file.synced)
          && (if VerifiedPlanSha256(hash, plan).Ok? && clock.Ok? && openable && !old(file.present) then
                && file.present
                && file.bytes
                   == Kept(EventLine(PreparedFor(hash, VerifiedPlanSha256(hash, plan).value, sqlFileSha256, clock.value)),
                           disk)
              else file.present == old(file.present) && file.bytes == old(file.bytes))
        else
          && r.Ok? && fresh(r.value) && r.value.file == file && r.value.prepared == o.value
          && file.present && file.bytes == EventLine(o.value) && file.synced == |file.bytes|
    {
      hide VerifiedPlanSha256, EventJson, Print, Decimal;
      var verified := VerifiedPlanSha256(hash, plan);
      if verified.Err? {
        return Err(verified.error);
      }
      if clock.Err? {
        return Err(clock.error);
      }
      var id := Sha256Bytes(hash, verified.value + ":" + sqlFileSha256 + ":" + Decimal(clock.value));
      var event := ReceiptEvent(RECEIPT_SCHEMA_VERSION, TOOL_VERSION, id, 1, clock.value, verified.value,
                                sqlFileSha256, None, Prepared, None, None);
      event := event.(eventSha256 := Some(EventSha256(hash, event)));
      if !openable || file.present {
        return Err(AppError(Io, "receipt_create_failed"));
      }
      assert event == PreparedFor(hash, verified.value, sqlFileSha256, clock.value);
      file.present := true;
      var written := WriteEvent(file, event, disk);
      ghost var kept := Kept(EventLine(event), disk);
      assert "" + kept == kept;
      if written.Err? {
        return Err(written.error);
      }
      var journal := new ReceiptJournal(file, event);
      r := Ok(journal);
    }

    /** Appends the terminal event that continues the prepared one. */
    method Finalize(hash: Hasher, state: ReceiptState, result: ReceiptResult, clock: Result<U64>, disk: Disk)
      returns (r: Result<ReceiptEvent>)
      modifies file
      ensures file.present == old(file.present)
      ensures r == FinalizeOutcome(hash, prepared, state, result, clock, disk)
      ensures r.Ok? ==>
                && file.bytes == old(file.bytes) + EventLine(r.value) && file.synced == |file.bytes|
      ensures r.Err? ==>
                && file.synced == old(file.synced)
                && file.bytes
                   == old(file.bytes)
                      + (if state.IsFinal() && clock.Ok? then
                           Kept(EventLine(FinalEvent(hash, prepared, state, result, clock.value)), disk)
                         else "")
    {
      assert file.bytes + "" == file.bytes;
      if !state.IsFinal() {
        return ContractError("receipt_final_state_invalid");
      }
      if clock.Err? {
        return Err(clock.error);
      }
      var event := ReceiptEvent(RECEIPT_SCHEMA_VERSION, TOOL_VERSION, prepared.receiptId, 2, clock.value,
                                prepared.planSha256, prepared.sqlFileSha256, prepared.eventSha256, state,
                                Some(result), None);
      event := event.(eventSha256 := Some(EventSha256(hash, event)));
      var written := WriteEvent(file, event, disk);
      if written.Err? {
        return Err(written.error);
      }
      r := Ok(event);
    }
  }

  /** A plan under construction, sealed in place (src/receipt.rs:178-182). */
  class PlanDocument {
    var plan: Plan

    constructor (plan: Plan)
      ensures this.plan == plan
    {
      this.plan := plan;
    }

    /** Sealing changes nothing but the seal, and a current plan then verifies. */
    method Seal(hash: Hasher)
      modifies this
      ensures plan.(planSha256 := None) == old(plan).(planSha256 := None)
      ensures plan == SealedPlan(hash, old(plan))
    {
      plan := plan.(planSha256 := None);
      var seal := Sha256Bytes(hash, Print(PlanJson(plan), Compact));
      plan := plan.(planSha256 := Some(seal));
    }
  }

  function SealedPlan(hash: Hasher, plan: Plan): Plan {
    plan.(planSha256 := Some(Sha256(hash, PlanContent(plan))))
  }

  /** A sealed plan of this version verifies with its seal, and sealing again changes nothing. */
  lemma SealVerifies(hash: Hasher, plan: Plan)
    requires plan.schemaVersion == PLAN_SCHEMA_VERSION && SupportedTool(plan.toolVersion)
    ensures VerifiedPlanSha256(hash, SealedPlan(hash, plan)) == Ok(SealedPlan(hash, plan).planSha256.value)
    ensures SealedPlan(hash, SealedPlan(hash, plan)) == SealedPlan(hash, plan)
  {
    hide PlanJson, Print;
    assert SealedPlan(hash, plan).(planSha256 := None) == plan.(planSha256 := None);
    assert PlanContent(SealedPlan(hash, plan)) == PlanContent(plan);
  }
}

/**
 Strict decoding, as `#[serde(deny_unknown_fields)]` derives it for the sealed documents.

 Members may come in any order and an optional field may be missing; an unknown or repeated member is an
 error.  serde also reads a struct from an array that lists its fields in order, and a unit variant from
 an object with one null member.
 */
module Codec {
  import opened Wrappers
  import opened Json
  import opened Model

  // ---------------------------------------------------------------- fields of a struct

  predicate Distinct(names: seq<string>) {
    forall i, j | 0 <= i < j < |names| :: names[i] != names[j]
  }

  predicate KnownOnce(members: seq<Member>, names: seq<string>) {
    && (forall i | 0 <= i < |members| :: members[i].key in names)
    && (forall i, j | 0 <= i < j < |members| :: members[i].key != members[j].key)
  }

  function Lookup(members: seq<Member>, name: string): Option<Json> {
    if members == [] then None
    else if members[0].key == name then Some(members[0].value)
    else Lookup(members[1..], name)
  }

  /** The fields of a struct by position; a field that is missing from an object is `None`. */
  function View(v: Json, names: seq<string>): (r: Option<seq<Option<Json>>>)
    ensures r.Some? ==> |r.value| == |names|
  {
    match v
    case Object(members) =>
      if KnownOnce(members, names) then
        Some(seq(|names|, i requires 0 <= i < |names| => Lookup(members, names[i])))
      else None
    case Array(items) =>
      if |items| == |names| then Some(seq(|names|, i requires 0 <= i < |items| => Some(items[i]))) else None
    case _ => None
  }

  lemma {:induction false} LookupFinds(members: seq<Member>, k: nat)
    requires k < |members|
    requires forall i, j | 0 <= i < j < |members| :: members[i].key != members[j].key
    ensures Lookup(members, members[k].key) == Some(members[k].value)
  {
    if k > 0 {
      LookupFinds(members[1..], k - 1);
    }
  }

  predicate Keyed(members: seq<Member>, names: seq<string>) {
    |members| == |names| && forall i | 0 <= i < |names| :: members[i].key == names[i]
  }

  /** An object written with exactly the expected names reads back field by field. */
  lemma ViewRoundTrip(members: seq<Member>, names: seq<string>)
    requires Keyed(members, names) && Distinct(names)
    ensures View(Object(members), names).Some?
    ensures forall i | 0 <= i < |names| :: View(Object(members), names).value[i] == Some(members[i].value)
  {
    forall i | 0 <= i < |names| ensures Lookup(members, names[i]) == Some(members[i].value) {
      LookupFinds(members, i);
    }
    forall i | 0 <= i < |members| ensures members[i].key in names {
      assert members[i].key == names[i];
    }
  }

  // ---------------------------------------------------------------- field readers

  function AsText(o: Option<Json>): Option<string> {
    if o.Some? && o.value.String? then Some(o.value.s) else None
  }

  function AsOptionalText(o: Option<Json>): Option<Option<string>> {
    if o.None? || o.value.Null? then Some(None)
    else if o.value.String? then Some(Some(o.value.s))
    else None
  }

  function AsBool(o: Option<Json>): Option<bool> {
    if o.Some? && o.value.Bool? then Some(o.value.b) else None
  }

  function AsNumber(o: Option<Json>, lo: int, hi: int): (r: Option<int>)
    ensures r.Some? ==> lo <= r.value <= hi
  {
    if o.Some? && o.value.Number? && lo <= o.value.n <= hi then Some(o.value.n) else None
  }

  function AsU64(o: Option<Json>): Option<U64> {
    match AsNumber(o, 0, 0xFFFF_FFFF_FFFF_FFFF) case Some(n) => Some(n) case None => None
  }

  function AsOptionalU64(o: Option<Json>): Option<Option<U64>> {
    if o.None? || o.value.Null? then Some(None)
    else match AsU64(o) case Some(n) => Some(Some(n)) case None => None
  }

  function AsU32(o: Option<Json>): Option<U32> {
    match AsNumber(o, 0, 0xFFFF_FFFF) case Some(n) => Some(n) case None => None
  }

  function AsI64(o: Option<Json>): Option<I64> {
    match AsNumber(o, -0x8000_0000_0000_0000, 0x7FFF_FFFF_FFFF_FFFF) case Some(n) => Some(n) case None => None
  }

  function AsOptionalI32(o: Option<Json>): Option<Option<I32>> {
    if o.None? || o.value.Null? then Some(None)
    else match AsNumber(o, -0x8000_0000, 0x7FFF_FFFF) case Some(n) => Some(Some(n)) case None => None
  }

  /** The name of a unit variant: `"name"` or `{"name":null}`. */
  function VariantName(o: Option<Json>): Option<string> {
    if o.None? then None
    else match o.value
      case String(s) => Some(s)
      case Object(members) =>
        if |members| == 1 && members[0].value.Null? then Some(members[0].key) else None
      case _ => None
  }

  function AsState(o: Option<Json>): Option<ReceiptState> {
    var name :- VariantName(o);
    if name == "prepared" then Some(Prepared)
    else if name == "committed" then Some(Committed)
    else if name == "rolled_back" then Some(RolledBack)
    else if name == "refused" then Some(Refused)
    else if name == "uncertain" then Some(Uncertain)
    else None
  }

  function AsKind(o: Option<Json>): Option<StatementKind> {
    var name :- VariantName(o);
    if name == "insert" then Some(StatementKind.Insert)
    else if name == "update" then Some(Update)
    else if name == "delete" then Some(Delete)
    else None
  }

  function AsTransport(o: Option<Json>): Option<TransportPolicy> {
    var name :- VariantName(o);
    if name == "tls_required" then Some(TlsRequired)
    else if name == "insecure_localhost" then Some(InsecureLocalhost)
    else None
  }

  lemma VariantsRoundTrip(s: ReceiptState, k: StatementKind, t: TransportPolicy)
    ensures AsState(Some(String(StateText(s)))) == Some(s)
    ensures AsKind(Some(String(KindText(k)))) == Some(k)
    ensures AsTransport(Some(String(TransportText(t)))) == Some(t)
  {
  }

  // ---------------------------------------------------------------- the settings map

  lemma {:induction false} BelowAsymmetric(a: string, b: string)
    ensures !(Below(a, b) && Below(b, a)) && !Below(a, a)
  {
    if a != "" {
      if b != "" { BelowAsymmetric(a[1..], b[1..]); }
      BelowAsymmetric(a[1..], a[1..]);
    }
  }

  lemma {:induction false} BelowTotal(a: string, b: string)
    ensures a == b || Below(a, b) || Below(b, a)
  {
    if a != "" && b != "" && a[0] == b[0] {
      BelowTotal(a[1..], b[1..]);
      assert a == [a[0]] + a[1..] && b == [b[0]] + b[1..];
    }
  }

  lemma {:induction false} BelowTransitive(a: string, b: string, c: string)
    requires Below(a, b) && Below(b, c)
    ensures Below(a, c)
  {
    if a != "" && a[0] == b[0] && b[0] == c[0] {
      BelowTransitive(a[1..], b[1..], c[1..]);
    }
  }

  /** `BTreeMap::insert`: the value of a key that is already there is replaced. */
  function PutSetting(s: seq<Setting>, key: string, value: string): seq<Setting> {
    if s == [] then [Setting(key, value)]
    else if s[0].key == key then [Setting(key, value)] + s[1..]
    else if Below(key, s[0].key) then [Setting(key, value)] + s
    else [s[0]] + PutSetting(s[1..], key, value)
  }

  lemma {:induction false} InsertKeys(s: seq<Setting>, key: string, value: string)
    ensures forall e | e in PutSetting(s, key, value) :: e.key == key || e in s
  {
    if s != [] && s[0].key != key && !Below(key, s[0].key) {
      InsertKeys(s[1..], key, value);
    }
  }

  lemma {:induction false} InsertSorted(s: seq<Setting>, key: string, value: string)
    requires Sorted(s)
    ensures Sorted(PutSetting(s, key, value))
  {
    var r := PutSetting(s, key, value);
    if s == [] {
    } else if s[0].key == key {
    } else if Below(key, s[0].key) {
      forall j | 0 <= j < |s| ensures Below(key, s[j].key) {
        if j > 0 { BelowTransitive(key, s[0].key, s[j].key); }
      }
    } else {
      InsertSorted(s[1..], key, value);
      InsertKeys(s[1..], key, value);
      BelowTotal(key, s[0].key);
      var rest := PutSetting(s[1..], key, value);
      forall j | 0 <= j < |rest| ensures Below(s[0].key, rest[j].key) {
        assert rest[j] in rest;
      }
    }
  }

  /** Reads the members of a map one after the other, each of them a text. */
  function DecodeSettings(members: seq<Member>, acc: Settings): Option<Settings> {
    if members == [] then Some(acc)
    else if !members[0].value.String? then None
    else
      InsertSorted(acc, members[0].key, members[0].value.s);
      DecodeSettings(members[1..], PutSetting(acc, members[0].key, members[0].value.s))
  }

  function AsSettings(o: Option<Json>): Option<Settings> {
    if o.Some? && o.value.Object? then DecodeSettings(o.value.members, []) else None
  }

  lemma {:induction false} InsertLast(s: seq<Setting>, key: string, value: string)
    requires forall i | 0 <= i < |s| :: Below(s[i].key, key)
    ensures PutSetting(s, key, value) == s + [Setting(key, value)]
  {
    if s != [] {
      BelowAsymmetric(s[0].key, key);
      BelowAsymmetric(key, key);
      InsertLast(s[1..], key, value);
      assert s == [s[0]] + s[1..];
    }
  }

  lemma {:induction false} SettingsRoundTripFrom(done: Settings, rest: seq<Setting>)
    requires Sorted(done + rest)
    ensures DecodeSettings(SettingMembers(rest), done) == Some(done + rest)
    decreases |rest|
  {
    if rest == [] {
      assert done + rest == done;
    } else {
      var all := done + rest;
      forall i | 0 <= i < |done| ensures Below(done[i].key, rest[0].key) {
        assert Below(all[i].key, all[|done|].key);
      }
      InsertLast(done, rest[0].key, rest[0].value);
      assert [Setting(rest[0].key, rest[0].value)] == [rest[0]];
      assert done + [rest[0]] + rest[1..] == all;
      assert Sorted(done + [rest[0]]) by {
        assert forall i | 0 <= i < |done| + 1 :: (done + [rest[0]])[i] == all[i];
      }
      SettingsRoundTripFrom(done + [rest[0]], rest[1..]);
      assert SettingMembers(rest)[1..] == SettingMembers(rest[1..]);
    }
  }

  lemma SettingsRoundTrip(s: Settings)
    ensures AsSettings(Some(Object(SettingMembers(s)))) == Some(s)
  {
    assert [] + s == s;
    SettingsRoundTripFrom([], s);
  }

  /** The value of the last member of this name. */
  function LastText(members: seq<Member>, key: string): Option<string> {
    if members == [] then None
    else
      var last := members[|members| - 1];
      if last.key == key && last.value.String? then Some(last.value.s) else LastText(members[..|members| - 1], key)
  }

  function SettingOf(s: seq<Setting>, key: string): Option<string> {
    if s == [] then None else if s[0].key == key then Some(s[0].value) else SettingOf(s[1..], key)
  }

  lemma {:induction false} PutThenFind(s: seq<Setting>, key: string, value: string, other: string)
    requires Sorted(s)
    ensures SettingOf(PutSetting(s, key, value), other) == if other == key then Some(value) else SettingOf(s, other)
  {
    if s != [] {
      PutThenFind(s[1..], key, value, other);
      assert ([s[0]] + PutSetting(s[1..], key, value))[1..] == PutSetting(s[1..], key, value);
      assert ([Setting(key, value)] + s)[1..] == s && ([Setting(key, value)] + s[1..])[1..] == s[1..];
      BelowAsymmetric(key, s[0].key);
      if Below(key, s[0].key) {
        NotBefore(s, key);
      }
    }
  }

  lemma {:induction false} NotBefore(s: seq<Setting>, key: string)
    requires Sorted(s) && s != [] && Below(key, s[0].key)
    ensures SettingOf(s, key).None?
  {
    BelowAsymmetric(key, s[0].key);
    if |s| > 1 {
      BelowTransitive(key, s[0].key, s[1].key);
      NotBefore(s[1..], key);
    }
  }

  lemma {:induction false} SettingsFrom(members: seq<Member>, acc: Settings, key: string)
    requires DecodeSettings(members, acc).Some?
    ensures SettingOf(DecodeSettings(members, acc).value, key)
         == if LastText(members, key).Some? then LastText(members, key) else SettingOf(acc, key)
    decreases |members|
  {
    if members != [] {
      var m := members[0];
      InsertSorted(acc, m.key, m.value.s);
      SettingsFrom(members[1..], PutSetting(acc, m.key, m.value.s), key);
      PutThenFind(acc, m.key, m.value.s, key);
      LastBehind(m, members[1..], key);
      assert [m] + members[1..] == members;
    }
  }

  lemma {:induction false} LastBehind(m: Member, rest: seq<Member>, key: string)
    ensures LastText([m] + rest, key)
         == if LastText(rest, key).Some? then LastText(rest, key)
            else if m.key == key && m.value.String? then Some(m.value.s)
            else None
    decreases |rest|
  {
    if rest != [] {
      LastBehind(m, rest[..|rest| - 1], key);
      assert ([m] + rest)[..|rest|] == [m] + rest[..|rest| - 1];
    } else {
      assert ([m] + rest)[..0] == [];
    }
  }

  /** A settings object is read as a map: of members with one name the last one counts. */
  lemma SettingsAreTheLast(members: seq<Member>, key: string)
    requires AsSettings(Some(Object(members))).Some?
    ensures SettingOf(AsSettings(Some(Object(members))).value, key) == LastText(members, key)
  {
    SettingsFrom(members, [], key);
  }

  // ---------------------------------------------------------------- documents

  const IDENTITY_FIELDS: seq<string> :=
    ["database", "role", "search_path", "server_version_num", "endpoint_sha256", "server_address", "server_port",
     "settings"]
  const RESULT_FIELDS: seq<string> :=
    ["affected_rows", "reason_code", "sqlstate", "database", "table_schema_sha256"]
  const EVENT_FIELDS: seq<string> :=
    ["schema_version", "tool_version", "receipt_id", "sequence", "timestamp_unix_ms", "plan_sha256",
     "sql_file_sha256", "previous_event_sha256", "state", "result", "event_sha256"]
  const LIMITS_FIELDS: seq<string> := ["max_rows", "statement_timeout_ms", "lock_timeout_ms"]
  const PRECONDITION_FIELDS: seq<string> :=
    ["database", "canonical_table", "table_schema_sha256", "target_count", "target_set_sha256", "relation_kind",
     "user_trigger_count", "rewrite_rule_count", "row_security"]
  const PLAN_FIELDS: seq<string> :=
    ["schema_version", "tool_version", "plan_id", "created_at_unix_ms", "expires_at_unix_ms", "statement_kind",
     "requested_table", "sql_file_sha256", "normalized_sql_sha256", "count_query_sha256", "target_query_sha256",
     "explain_sha256", "limits", "transport_policy", "allow_triggers", "allow_row_security", "preconditions",
     "plan_sha256"]

  lemma SmallFieldsDistinct()
    ensures Distinct(IDENTITY_FIELDS) && Distinct(RESULT_FIELDS) && Distinct(LIMITS_FIELDS)
  {
  }

  lemma EventFieldsDistinct()
    ensures Distinct(EVENT_FIELDS)
  {
  }

  lemma PreconditionFieldsDistinct()
    ensures Distinct(PRECONDITION_FIELDS)
  {
  }

  lemma PlanFieldsDistinct()
    ensures Distinct(PLAN_FIELDS)
  {
  }

  function DecodeIdentity(v: Json): Option<DatabaseIdentity> {
    var f :- View(v, IDENTITY_FIELDS);
    var database :- AsText(f[0]);
    var role :- AsText(f[1]);
    var searchPath :- AsText(f[2]);
    var version :- AsI64(f[3]);
    var endpoint :- AsText(f[4]);
    var address :- AsOptionalText(f[5]);
    var port :- AsOptionalI32(f[6]);
    var settings :- AsSettings(f[7]);
    Some(DatabaseIdentity(database, role, searchPath, version, endpoint, address, port, settings))
  }

  function AsOptionalIdentity(o: Option<Json>): Option<Option<DatabaseIdentity>> {
    if o.None? || o.value.Null? then Some(None)
    else
      var d :- DecodeIdentity(o.value);
      Some(Some(d))
  }

  function DecodeResult(v: Json): Option<ReceiptResult> {
    var f :- View(v, RESULT_FIELDS);
    var affected :- AsOptionalU64(f[0]);
    var reason :- AsText(f[1]);
    var sqlstate :- AsOptionalText(f[2]);
    var database :- AsOptionalIdentity(f[3]);
    var schemaHash :- AsOptionalText(f[4]);
    Some(ReceiptResult(affected, reason, sqlstate, database, schemaHash))
  }

  function AsOptionalResult(o: Option<Json>): Option<Option<ReceiptResult>> {
    if o.None? || o.value.Null? then Some(None)
    else
      var r :- DecodeResult(o.value);
      Some(Some(r))
  }

  function DecodeEvent(v: Json): Option<ReceiptEvent> {
    var f :- View(v, EVENT_FIELDS);
    var schema :- AsText(f[0]);
    var tool :- AsText(f[1]);
    var id :- AsText(f[2]);
    var sequence :- AsU32(f[3]);
    var timestamp :- AsU64(f[4]);
    var planHash :- AsText(f[5]);
    var sqlHash :- AsText(f[6]);
    var previous :- AsOptionalText(f[7]);
    var state :- AsState(f[8]);
    var result :- AsOptionalResult(f[9]);
    var hash :- AsOptionalText(f[10]);
    Some(ReceiptEvent(schema, tool, id, sequence, timestamp, planHash, sqlHash, previous, state, result, hash))
  }

  function DecodeLimits(o: Option<Json>): Option<Limits> {
    if o.None? then None
    else
      var f :- View(o.value, LIMITS_FIELDS);
      var maxRows :- AsU64(f[0]);
      var statementTimeout :- AsU64(f[1]);
      var lockTimeout :- AsU64(f[2]);
      Some(Limits(maxRows, statementTimeout, lockTimeout))
  }

  function DecodePreconditions(o: Option<Json>): Option<PlanPreconditions> {
    if o.None? then None
    else
      var f :- View(o.value, PRECONDITION_FIELDS);
      if f[0].None? then None
      else
        var database :- DecodeIdentity(f[0].value);
        var table :- AsText(f[1]);
        var schemaHash :- AsText(f[2]);
        var count :- AsU64(f[3]);
        var setHash :- AsText(f[4]);
        var kind :- AsText(f[5]);
        var triggers :- AsU64(f[6]);
        var rules :- AsU64(f[7]);
        var security :- AsBool(f[8]);
        Some(PlanPreconditions(database, table, schemaHash, count, setHash, kind, triggers, rules, security))
  }

  function DecodePlan(v: Json): Option<Plan> {
    var f :- View(v, PLAN_FIELDS);
    var schema :- AsText(f[0]);
    var tool :- AsText(f[1]);
    var id :- AsText(f[2]);
    var created :- AsU64(f[3]);
    var expires :- AsU64(f[4]);
    var kind :- AsKind(f[5]);
    var table :- AsText(f[6]);
    var sqlHash :- AsText(f[7]);
    var normalizedHash :- AsText(f[8]);
    var countHash :- AsOptionalText(f[9]);
    var targetHash :- AsOptionalText(f[10]);
    var explainHash :- AsText(f[11]);
    var limits :- DecodeLimits(f[12]);
    var transport :- AsTransport(f[13]);
    var triggers :- AsBool(f[14]);
    var security :- AsBool(f[15]);
    var preconditions :- DecodePreconditions(f[16]);
    var hash :- AsOptionalText(f[17]);
    Some(Plan(schema, tool, id, created, expires, kind, table, sqlHash, normalizedHash, countHash, targetHash,
              explainHash, limits, transport, triggers, security, preconditions, hash))
  }

  lemma IdentityView(d: DatabaseIdentity)
    ensures Keyed(IdentityJson(d).members, IDENTITY_FIELDS)
  {
    hide SettingMembers, TextOrNull, NumberOrNull;
  }

  lemma IdentityRoundTrip(d: DatabaseIdentity)
    ensures DecodeIdentity(IdentityJson(d)) == Some(d)
  {
    SmallFieldsDistinct();
    IdentityView(d);
    SettingsRoundTrip(d.settings);
    hide DecodeSettings, View, Distinct, Keyed, SettingMembers, AsSettings;
    ViewRoundTrip(IdentityJson(d).members, IDENTITY_FIELDS);
  }

  lemma OptionalIdentityRoundTrip(d: Option<DatabaseIdentity>)
    ensures AsOptionalIdentity(Some(if d.Some? then IdentityJson(d.value) else Null)) == Some(d)
  {
    if d.Some? {
      IdentityRoundTrip(d.value);
      NotNull(d.value);
    }
  }

  lemma OptionalTextRoundTrip(o: Option<string>)
    ensures AsOptionalText(Some(TextOrNull(o))) == Some(o)
  {
  }

  lemma ResultRoundTrip(r: ReceiptResult)
    ensures DecodeResult(ResultJson(r)) == Some(r)
  {
    SmallFieldsDistinct();
    assert Keyed(ResultJson(r).members, RESULT_FIELDS);
    OptionalIdentityRoundTrip(r.database);
    OptionalTextRoundTrip(r.sqlstate);
    OptionalTextRoundTrip(r.tableSchemaSha256);
    hide AsOptionalIdentity, IdentityJson, View, Distinct, Keyed, AsOptionalText, TextOrNull;
    ViewRoundTrip(ResultJson(r).members, RESULT_FIELDS);
  }

  lemma NotNull(d: DatabaseIdentity)
    ensures IdentityJson(d) != Null
  {
  }

  lemma ResultNotNull(r: ReceiptResult)
    ensures ResultJson(r) != Null
  {
  }

  lemma OptionalResultRoundTrip(r: Option<ReceiptResult>)
    ensures AsOptionalResult(Some(if r.Some? then ResultJson(r.value) else Null)) == Some(r)
  {
    if r.Some? {
      ResultRoundTrip(r.value);
      ResultNotNull(r.value);
    }
  }

  lemma EventKeyed(e: ReceiptEvent)
    ensures Keyed(EventJson(e).members, EVENT_FIELDS)
  {
    hide ResultJson, TextOrNull, StateText;
  }

  lemma EventView(e: ReceiptEvent)
    ensures View(EventJson(e), EVENT_FIELDS).Some?
    ensures var f := View(EventJson(e), EVENT_FIELDS).value;
      && |f| == 11
      && f[0] == Some(String(e.schemaVersion)) && f[1] == Some(String(e.toolVersion))
      && f[2] == Some(String(e.receiptId)) && f[3] == Some(Number(e.sequence))
      && f[4] == Some(Number(e.timestampUnixMs)) && f[5] == Some(String(e.planSha256))
      && f[6] == Some(String(e.sqlFileSha256)) && f[7] == Some(TextOrNull(e.previousEventSha256))
      && f[8] == Some(String(StateText(e.state)))
      && f[9] == Some(if e.result.Some? then ResultJson(e.result.value) else Null)
      && f[10] == Some(TextOrNull(e.eventSha256))
  {
    EventFieldsDistinct();
    EventKeyed(e);
    hide ResultJson, View, Distinct, Keyed, StateText, TextOrNull;
    ViewRoundTrip(EventJson(e).members, EVENT_FIELDS);
  }

  /** Every receipt event reads back as itself. */
  lemma EventRoundTrip(e: ReceiptEvent)
    ensures DecodeEvent(EventJson(e)) == Some(e)
  {
    VariantsRoundTrip(e.state, Update, TlsRequired);
    OptionalResultRoundTrip(e.result);
    OptionalTextRoundTrip(e.previousEventSha256);
    OptionalTextRoundTrip(e.eventSha256);
    EventView(e);
    hide AsOptionalResult, ResultJson, EventJson, EVENT_FIELDS, View, AsState, StateText, AsOptionalText, TextOrNull;
  }

  lemma LimitsRoundTrip(l: Limits)
    ensures DecodeLimits(Some(LimitsJson(l))) == Some(l)
  {
    SmallFieldsDistinct();
    assert Keyed(LimitsJson(l).members, LIMITS_FIELDS);
    hide View, Distinct, Keyed;
    ViewRoundTrip(LimitsJson(l).members, LIMITS_FIELDS);
  }

  lemma PreconditionsKeyed(p: PlanPreconditions)
    ensures Keyed(PreconditionsJson(p).members, PRECONDITION_FIELDS)
  {
    hide IdentityJson;
  }

  lemma PreconditionsRoundTrip(p: PlanPreconditions)
    ensures DecodePreconditions(Some(PreconditionsJson(p))) == Some(p)
  {
    PreconditionFieldsDistinct();
    PreconditionsKeyed(p);
    IdentityRoundTrip(p.database);
    hide DecodeIdentity, IdentityJson, View, Distinct, Keyed;
    ViewRoundTrip(PreconditionsJson(p).members, PRECONDITION_FIELDS);
  }

  lemma PlanKeyed(p: Plan)
    ensures Keyed(PlanJson(p).members, PLAN_FIELDS)
  {
    hide PreconditionsJson, LimitsJson, TextOrNull, KindText, TransportText;
  }

  /** The eighteen values of a plan in the order of its fields. */
  function PlanValues(p: Plan): (v: seq<Json>)
    ensures |v| == 18
  {
    [String(p.schemaVersion), String(p.toolVersion), String(p.planId), Number(p.createdAtUnixMs),
     Number(p.expiresAtUnixMs), String(KindText(p.statementKind)), String(p.requestedTable),
     String(p.sqlFileSha256), String(p.normalizedSqlSha256), TextOrNull(p.countQuerySha256),
     TextOrNull(p.targetQuerySha256), String(p.explainSha256), LimitsJson(p.limits),
     String(TransportText(p.transportPolicy)), Bool(p.allowTriggers), Bool(p.allowRowSecurity),
     PreconditionsJson(p.preconditions), TextOrNull(p.planSha256)]
  }

  lemma PlanValued(p: Plan)
    ensures |PlanJson(p).members| == 18
    ensures forall i | 0 <= i < 18 :: PlanJson(p).members[i].value == PlanValues(p)[i]
  {
    hide PreconditionsJson, LimitsJson, TextOrNull, KindText, TransportText;
  }

  lemma PlanView(p: Plan)
    ensures View(PlanJson(p), PLAN_FIELDS).Some?
    ensures |View(PlanJson(p), PLAN_FIELDS).value| == 18
    ensures forall i | 0 <= i < 18 :: View(PlanJson(p), PLAN_FIELDS).value[i] == Some(PlanValues(p)[i])
  {
    PlanFieldsDistinct();
    PlanKeyed(p);
    PlanValued(p);
    assert |PLAN_FIELDS| == 18;
    var members := PlanJson(p).members;
    assert PlanJson(p) == Object(members);
    hide PlanJson, PlanValues, View, Distinct, PLAN_FIELDS;
    ViewRoundTrip(members, PLAN_FIELDS);
    forall i | 0 <= i < 18 ensures View(PlanJson(p), PLAN_FIELDS).value[i] == Some(PlanValues(p)[i]) {
      assert members[i].value == PlanValues(p)[i];
    }
  }

  /** Every plan reads back as itself. */
  lemma PlanRoundTrip(p: Plan)
    ensures DecodePlan(PlanJson(p)) == Some(p)
  {
    VariantsRoundTrip(Prepared, p.statementKind, p.transportPolicy);
    LimitsRoundTrip(p.limits);
    PreconditionsRoundTrip(p.preconditions);
    PlanView(p);
    OptionalTextRoundTrip(p.countQuerySha256);
    OptionalTextRoundTrip(p.targetQuerySha256);
    OptionalTextRoundTrip(p.planSha256);
    hide DecodePreconditions, DecodeLimits, PreconditionsJson, LimitsJson, View, PlanJson, PLAN_FIELDS;
    hide AsKind, AsTransport, KindText, TransportText, AsOptionalText, TextOrNull;
  }

  // ---------------------------------------------------------------- other forms of one document

  function ValuesOf(members: seq<Member>): (items: seq<Json>)
    ensures |items| == |members| && forall i | 0 <= i < |items| :: items[i] == members[i].value
  {
    seq(|members|, i requires 0 <= i < |members| => members[i].value)
  }

  lemma SameView(members: seq<Member>, names: seq<string>)
    requires Keyed(members, names) && Distinct(names)
    ensures View(Array(ValuesOf(members)), names) == View(Object(members), names)
  {
    ViewRoundTrip(members, names);
    var x, y := View(Array(ValuesOf(members)), names), View(Object(members), names);
    assert x.Some? && |x.value| == |y.value|;
    assert forall i | 0 <= i < |names| :: x.value[i] == y.value[i];
    assert x.value == y.value;
  }

  /** Only the fields of a document matter, not its form. */
  lemma PlanOfView(v: Json, w: Json)
    requires View(v, PLAN_FIELDS) == View(w, PLAN_FIELDS)
    ensures DecodePlan(v) == DecodePlan(w)
  {
    hide View, PLAN_FIELDS, AsText, AsU64, AsKind, AsBool, AsTransport, AsOptionalText, DecodeLimits, DecodePreconditions;
  }

  lemma EventOfView(v: Json, w: Json)
    requires View(v, EVENT_FIELDS) == View(w, EVENT_FIELDS)
    ensures DecodeEvent(v) == DecodeEvent(w)
  {
    hide View, EVENT_FIELDS, AsText, AsU64, AsU32, AsState, AsOptionalText, AsOptionalResult;
  }

  /** A plan written as an array of its values is read as the same plan. */
  lemma PlanAsArray(p: Plan)
    ensures DecodePlan(Array(ValuesOf(PlanJson(p).members))) == Some(p)
  {
    hide View, Keyed, Distinct, DecodePlan, ValuesOf, PLAN_FIELDS, LimitsJson, PreconditionsJson, TextOrNull, KindText;
    hide TransportText;
    PlanKeyed(p);
    PlanFieldsDistinct();
    SameView(PlanJson(p).members, PLAN_FIELDS);
    PlanOfView(Array(ValuesOf(PlanJson(p).members)), PlanJson(p));
    PlanRoundTrip(p);
  }

  /** So is an event. */
  lemma EventAsArray(e: ReceiptEvent)
    ensures DecodeEvent(Array(ValuesOf(EventJson(e).members))) == Some(e)
  {
    hide View, Keyed, Distinct, DecodeEvent, ValuesOf, EVENT_FIELDS, ResultJson, TextOrNull, StateText;
    EventKeyed(e);
    EventFieldsDistinct();
    SameView(EventJson(e).members, EVENT_FIELDS);
    EventOfView(Array(ValuesOf(EventJson(e).members)), EventJson(e));
    EventRoundTrip(e);
  }

  /** A variant written as an object with one null member is read as the same variant. */
  lemma VariantsAsObjects(s: ReceiptState, k: StatementKind, t: TransportPolicy)
    ensures AsState(Some(Object([Member(StateText(s), Null)]))) == Some(s)
    ensures AsKind(Some(Object([Member(KindText(k), Null)]))) == Some(k)
    ensures AsTransport(Some(Object([Member(TransportText(t), Null)]))) == Some(t)
  {
  }
}

/** The sealed documents and the catalog evidence (src/model.rs). */
module Model {
  import opened Wrappers
  import opened Json

  const PLAN_SCHEMA_VERSION := "dmlpact.plan.v1"
  const RECEIPT_SCHEMA_VERSION := "dmlpact.receipt-event.v1"
  const TOOL_VERSION := "0.3.0"

  type U64 = x: int | 0 <= x <= 0xFFFF_FFFF_FFFF_FFFF
  type U32 = x: int | 0 <= x <= 0xFFFF_FFFF
  type I64 = x: int | -0x8000_0000_0000_0000 <= x <= 0x7FFF_FFFF_FFFF_FFFF
  type I32 = x: int | -0x8000_0000 <= x <= 0x7FFF_FFFF
  type I16 = x: int | -0x8000 <= x <= 0x7FFF

  datatype StatementKind = Insert | Update | Delete

  datatype TransportPolicy = TlsRequired | InsecureLocalhost

  datatype Limits = Limits(maxRows: U64, statementTimeoutMs: U64, lockTimeoutMs: U64)

  /** Byte order on texts, the order of a `BTreeMap<String, _>`. */
  predicate Below(a: string, b: string) {
    b != "" && (a == "" || a[0] < b[0] || (a[0] == b[0] && Below(a[1..], b[1..])))
  }

  datatype Setting = Setting(key: string, value: string)

  predicate Sorted(s: seq<Setting>) {
    forall i, j | 0 <= i < j < |s| :: Below(s[i].key, s[j].key)
  }

  /** A map from text to text in the order in which it is written. */
  type Settings = s: seq<Setting> | Sorted(s)

  datatype DatabaseIdentity = DatabaseIdentity(
    database: string,
    role: string,
    searchPath: string,
    serverVersionNum: I64,
    endpointSha256: string,
    serverAddress: Option<string>,
    serverPort: Option<I32>,
    settings: Settings)

  datatype ColumnEvidence = ColumnEvidence(
    position: I16,
    name: string,
    dataType: string,
    notNull: bool,
    hasDefault: bool,
    defaultExpression: Option<string>,
    identity: string,
    generated: string)

  datatype NamedDefinition = NamedDefinition(name: string, definition: string)

  datatype TableEvidence = TableEvidence(
    schema: string,
    table: string,
    oid: I64,
    relationKind: string,
    persistence: string,
    rowSecurity: bool,
    forceRowSecurity: bool,
    columns: seq<ColumnEvidence>,
    constraints: seq<NamedDefinition>,
    indexes: seq<NamedDefinition>,
    userTriggers: seq<NamedDefinition>,
    rewriteRules: seq<NamedDefinition>,
    policies: seq<NamedDefinition>,
    inheritanceRelations: seq<string>,
    referentialActions: seq<NamedDefinition>)

  datatype PlanPreconditions = PlanPreconditions(
    database: DatabaseIdentity,
    canonicalTable: string,
    tableSchemaSha256: string,
    targetCount: U64,
    targetSetSha256: string,
    relationKind: string,
    userTriggerCount: U64,
    rewriteRuleCount: U64,
    rowSecurity: bool)

  datatype Plan = Plan(
    schemaVersion: string,
    toolVersion: string,
    planId: string,
    createdAtUnixMs: U64,
    expiresAtUnixMs: U64,
    statementKind: StatementKind,
    requestedTable: string,
    sqlFileSha256: string,
    normalizedSqlSha256: string,
    countQuerySha256: Option<string>,
    targetQuerySha256: Option<string>,
    explainSha256: string,
    limits: Limits,
    transportPolicy: TransportPolicy,
    allowTriggers: bool,
    allowRowSecurity: bool,
    preconditions: PlanPreconditions,
    planSha256: Option<string>)

  datatype ReceiptState = Prepared | Committed | RolledBack | Refused | Uncertain {
    predicate IsFinal() { !Prepared? }
  }

  datatype ReceiptResult = ReceiptResult(
    affectedRows: Option<U64>,
    reasonCode: string,
    sqlstate: Option<string>,
    database: Option<DatabaseIdentity>,
    tableSchemaSha256: Option<string>)

  datatype ReceiptEvent = ReceiptEvent(
    schemaVersion: string,
    toolVersion: string,
    receiptId: string,
    sequence: U32,
    timestampUnixMs: U64,
    planSha256: string,
    sqlFileSha256: string,
    previousEventSha256: Option<string>,
    state: ReceiptState,
    result: Option<ReceiptResult>,
    eventSha256: Option<string>)

  /** What the offline verifier reports (src/model.rs:211-221). */
  datatype ReceiptVerification = ReceiptVerification(
    receiptId: string,
    complete: bool,
    eventCount: nat,
    finalState: ReceiptState,
    planSha256: string,
    finalEventSha256: string)

  datatype ApplyResult = ApplyResult(
    receiptId: string,
    state: ReceiptState,
    planSha256: string,
    affectedRows: Option<U64>,
    reasonCode: string)

  // ---------------------------------------------------------------- writing, as serde derives it

  function TextOrNull(o: Option<string>): Json {
    if o.Some? then String(o.value) else Null
  }

  function NumberOrNull(o: Option<int>): Json {
    if o.Some? then Number(o.value) else Null
  }

  function KindText(k: StatementKind): string {
    match k case Insert => "insert" case Update => "update" case Delete => "delete"
  }

  function TransportText(t: TransportPolicy): string {
    match t case TlsRequired => "tls_required" case InsecureLocalhost => "insecure_localhost"
  }

  function StateText(s: ReceiptState): string {
    match s
    case Prepared => "prepared"
    case Committed => "committed"
    case RolledBack => "rolled_back"
    case Refused => "refused"
    case Uncertain => "uncertain"
  }

  function LimitsJson(l: Limits): Json {
    Object([
      Member("max_rows", Number(l.maxRows)),
      Member("statement_timeout_ms", Number(l.statementTimeoutMs)),
      Member("lock_timeout_ms", Number(l.lockTimeoutMs))])
  }

  function SettingMembers(s: seq<Setting>): (m: seq<Member>)
    ensures |m| == |s|
    ensures forall i | 0 <= i < |s| :: m[i] == Member(s[i].key, String(s[i].value))
  {
    seq(|s|, i requires 0 <= i < |s| => Member(s[i].key, String(s[i].value)))
  }

  function IdentityJson(d: DatabaseIdentity): Json {
    Object([
      Member("database", String(d.database)),
      Member("role", String(d.role)),
      Member("search_path", String(d.searchPath)),
      Member("server_version_num", Number(d.serverVersionNum)),
      Member("endpoint_sha256", String(d.endpointSha256)),
      Member("server_address", TextOrNull(d.serverAddress)),
      Member("server_port", NumberOrNull(d.serverPort)),
      Member("settings", Object(SettingMembers(d.settings)))])
  }

  function PreconditionsJson(p: PlanPreconditions): Json {
    Object([
      Member("database", IdentityJson(p.database)),
      Member("canonical_table", String(p.canonicalTable)),
      Member("table_schema_sha256", String(p.tableSchemaSha256)),
      Member("target_count", Number(p.targetCount)),
      Member("target_set_sha256", String(p.targetSetSha256)),
      Member("relation_kind", String(p.relationKind)),
      Member("user_trigger_count", Number(p.userTriggerCount)),
      Member("rewrite_rule_count", Number(p.rewriteRuleCount)),
      Member("row_security", Bool(p.rowSecurity))])
  }

  function PlanJson(p: Plan): Json {
    Object([
      Member("schema_version", String(p.schemaVersion)),
      Member("tool_version", String(p.toolVersion)),
      Member("plan_id", String(p.planId)),
      Member("created_at_unix_ms", Number(p.createdAtUnixMs)),
      Member("expires_at_unix_ms", Number(p.expiresAtUnixMs)),
      Member("statement_kind", String(KindText(p.statementKind))),
      Member("requested_table", String(p.requestedTable)),
      Member("sql_file_sha256", String(p.sqlFileSha256)),
      Member("normalized_sql_sha256", String(p.normalizedSqlSha256)),
      Member("count_query_sha256", TextOrNull(p.countQuerySha256)),
      Member("target_query_sha256", TextOrNull(p.targetQuerySha256)),
      Member("explain_sha256", String(p.explainSha256)),
      Member("limits", LimitsJson(p.limits)),
      Member("transport_policy", String(TransportText(p.transportPolicy))),
      Member("allow_triggers", Bool(p.allowTriggers)),
      Member("allow_row_security", Bool(p.allowRowSecurity)),
      Member("preconditions", PreconditionsJson(p.preconditions)),
      Member("plan_sha256", TextOrNull(p.planSha256))])
  }

  function ResultJson(r: ReceiptResult): Json {
    Object([
      Member("affected_rows", NumberOrNull(r.affectedRows)),
      Member("reason_code", String(r.reasonCode)),
      Member("sqlstate", TextOrNull(r.sqlstate)),
      Member("database", if r.database.Some? then IdentityJson(r.database.value) else Null),
      Member("table_schema_sha256", TextOrNull(r.tableSchemaSha256))])
  }

  function EventJson(e: ReceiptEvent): Json {
    Object([
      Member("schema_version", String(e.schemaVersion)),
      Member("tool_version", String(e.toolVersion)),
      Member("receipt_id", String(e.receiptId)),
      Member("sequence", Number(e.sequence)),
      Member("timestamp_unix_ms", Number(e.timestampUnixMs)),
      Member("plan_sha256", String(e.planSha256)),
      Member("sql_file_sha256", String(e.sqlFileSha256)),
      Member("previous_event_sha256", TextOrNull(e.previousEventSha256)),
      Member("state", String(StateText(e.state))),
      Member("result", if e.result.Some? then ResultJson(e.result.value) else Null),
      Member("event_sha256", TextOrNull(e.eventSha256))])
  }

  function ColumnJson(c: ColumnEvidence): Json {
    Object([
      Member("position", Number(c.position)),
      Member("name", String(c.name)),
      Member("data_type", String(c.dataType)),
      Member("not_null", Bool(c.notNull)),
      Member("has_default", Bool(c.hasDefault)),
      Member("default_expression", TextOrNull(c.defaultExpression)),
      Member("identity", String(c.identity)),
      Member("generated", String(c.generated))])
  }

  function DefinitionJson(d: NamedDefinition): Json {
    Object([Member("name", String(d.name)), Member("definition", String(d.definition))])
  }

  function TextJson(s: string): Json {
    String(s)
  }

  function ListJson<T>(items: seq<T>, f: T -> Json): Json {
    Array(seq(|items|, i requires 0 <= i < |items| => f(items[i])))
  }

  function EvidenceJson(e: TableEvidence): Json {
    Object([
      Member("schema", String(e.schema)),
      Member("table", String(e.table)),
      Member("oid", Number(e.oid)),
      Member("relation_kind", String(e.relationKind)),
      Member("persistence", String(e.persistence)),
      Member("row_security", Bool(e.rowSecurity)),
      Member("force_row_security", Bool(e.forceRowSecurity)),
      Member("columns", ListJson(e.columns, ColumnJson)),
      Member("constraints", ListJson(e.constraints, DefinitionJson)),
      Member("indexes", ListJson(e.indexes, DefinitionJson)),
      Member("user_triggers", ListJson(e.userTriggers, DefinitionJson)),
      Member("rewrite_rules", ListJson(e.rewriteRules, DefinitionJson)),
      Member("policies", ListJson(e.policies, DefinitionJson)),
      Member("inheritance_relations", ListJson(e.inheritanceRelations, TextJson)),
      Member("referential_actions", ListJson(e.referentialActions, DefinitionJson))])
  }
}

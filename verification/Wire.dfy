/**
 The bytes of the documents: what is hashed under a seal, and what a receipt file holds, name by name and
 value by value (src/model.rs, src/receipt.rs:27-95).
 */
module Wire {
  import opened Wrappers
  import opened Json
  import opened Integrity
  import Codec
  import opened Model
  import opened Receipt
  import opened Journal
  import opened Fingerprint
  import opened Db

  // ---------------------------------------------------------------- records

  /** A name and the text of its value. */
  type Field = (string, string)

  function Joined(fields: seq<Field>): string {
    if fields == [] then ""
    else PrintText(fields[0].0) + ":" + fields[0].1 + (if |fields| == 1 then "" else "," + Joined(fields[1..]))
  }

  /** A compact JSON object: fields in order, separated by commas, without white space. */
  function Record(fields: seq<Field>): string {
    "{" + Joined(fields) + "}"
  }

  function FieldsOf(members: seq<Member>): (fields: seq<Field>)
    ensures |fields| == |members|
    ensures forall i | 0 <= i < |fields| :: fields[i] == (members[i].key, Print(members[i].value, Compact))
  {
    seq(|members|, i requires 0 <= i < |members| => (members[i].key, Print(members[i].value, Compact)))
  }

  lemma {:induction false} MembersText(members: seq<Member>)
    requires members != []
    ensures PrintMembers(members, Compact) == Joined(FieldsOf(members))
  {
    hide PrintText;
    var fields := FieldsOf(members);
    assert "" + PrintText(members[0].key) == PrintText(members[0].key);
    if |members| > 1 {
      MembersText(members[1..]);
      assert fields[1..] == FieldsOf(members[1..]);
    }
  }

  lemma ObjectText(members: seq<Member>)
    requires members != []
    ensures Print(Object(members), Compact) == Record(FieldsOf(members))
  {
    MembersText(members);
    var s := Joined(FieldsOf(members));
    assert "{" + s + "" + "}" == "{" + s + "}";
  }

  // ---------------------------------------------------------------- values

  function OrNull(o: Option<string>): string {
    if o.Some? then PrintText(o.value) else "null"
  }

  function Truth(b: bool): string {
    if b then "true" else "false"
  }

  function Kind(k: StatementKind): string {
    match k case Insert => PrintText("insert") case Update => PrintText("update") case Delete => PrintText("delete")
  }

  function Transport(t: TransportPolicy): string {
    match t case TlsRequired => PrintText("tls_required") case InsecureLocalhost => PrintText("insecure_localhost")
  }

  function State(s: ReceiptState): string {
    match s
    case Prepared => PrintText("prepared")
    case Committed => PrintText("committed")
    case RolledBack => PrintText("rolled_back")
    case Refused => PrintText("refused")
    case Uncertain => PrintText("uncertain")
  }

  function Elements<T>(items: seq<T>, text: T -> string): string {
    if items == [] then "" else text(items[0]) + (if |items| == 1 then "" else "," + Elements(items[1..], text))
  }

  /** A compact JSON array. */
  function List<T>(items: seq<T>, text: T -> string): string {
    "[" + Elements(items, text) + "]"
  }

  // ---------------------------------------------------------------- text and layout

  /** How a byte appears inside of a JSON text: the short escapes, a lower-case `\u00xx` or the byte itself. */
  lemma EscapeExactly(c: char)
    ensures c as int == 34 || c as int == 92 ==> EscapeChar(c) == ['\\', c]
    ensures c as int == 8 ==> EscapeChar(c) == ['\\', 'b']
    ensures c as int == 9 ==> EscapeChar(c) == ['\\', 't']
    ensures c as int == 10 ==> EscapeChar(c) == ['\\', 'n']
    ensures c as int == 12 ==> EscapeChar(c) == ['\\', 'f']
    ensures c as int == 13 ==> EscapeChar(c) == ['\\', 'r']
    ensures c as int < 32 && c as int !in {8, 9, 10, 12, 13} ==>
              && |EscapeChar(c)| == 6 && EscapeChar(c)[..4] == "\\u00"
              && LowerHex(EscapeChar(c)[4], c as int / 16) && LowerHex(EscapeChar(c)[5], c as int % 16)
    ensures c as int >= 32 && c as int != 34 && c as int != 92 ==> EscapeChar(c) == [c]
  {
    if c as int < 32 {
      HexDigit(c as int / 16);
      HexDigit(c as int % 16);
      hide HEX;
    }
  }

  /** Fields on lines of their own behind an indent. */
  function Indented(fields: seq<Field>, indent: string): string
    requires fields != []
  {
    indent + PrintText(fields[0].0) + ": " + fields[0].1 + (if |fields| == 1 then "" else ",\n" + Indented(fields[1..], indent))
  }

  function PrettyFields(members: seq<Member>, depth: nat): (fields: seq<Field>)
    ensures |fields| == |members|
    ensures forall i | 0 <= i < |fields| :: fields[i] == (members[i].key, Print(members[i].value, Pretty(depth)))
  {
    seq(|members|, i requires 0 <= i < |members| => (members[i].key, Print(members[i].value, Pretty(depth))))
  }

  lemma NextLine(indent: string, key: string, value: string, more: string)
    ensures "\n" + indent + key + ": " + value + ("," + ("\n" + more)) == "\n" + (indent + key + ": " + value + (",\n" + more))
    ensures "\n" + indent + key + ": " + value + "" == "\n" + (indent + key + ": " + value + "")
  {
    assert "," + ("\n" + more) == ",\n" + more;
  }

  lemma {:induction false} PrettyMembers(members: seq<Member>, depth: nat)
    requires members != []
    ensures PrintMembers(members, Pretty(depth)) == "\n" + Indented(PrettyFields(members, depth), Spaces(2 * depth))
  {
    hide PrintText, Spaces;
    var m, fields, indent := members[0], PrettyFields(members, depth), Spaces(2 * depth);
    if |members| == 1 {
      NextLine(indent, PrintText(m.key), Print(m.value, Pretty(depth)), "");
    } else {
      PrettyMembers(members[1..], depth);
      assert fields[1..] == PrettyFields(members[1..], depth);
      NextLine(indent, PrintText(m.key), Print(m.value, Pretty(depth)), Indented(fields[1..], indent));
    }
  }

  /** The layout of a plan file: one field a line, two more spaces for each level, and an empty object closed at once. */
  lemma PrettyExactly(members: seq<Member>, depth: nat)
    ensures members != [] ==>
              Print(Object(members), Pretty(depth))
              == "{\n" + Indented(PrettyFields(members, depth + 1), Spaces(2 * depth + 2)) + "\n" + Spaces(2 * depth) + "}"
    ensures Print(Object([]), Pretty(depth)) == "{}" && Print(Array([]), Pretty(depth)) == "[]"
  {
    if members != [] {
      PrettyMembers(members, depth + 1);
      hide PrintMembers, Spaces, Indented;
      Braces(Indented(PrettyFields(members, depth + 1), Spaces(2 * depth + 2)), Spaces(2 * depth));
    }
  }

  lemma Braces(lines: string, indent: string)
    ensures "{" + ("\n" + lines) + ("\n" + indent) + "}" == "{\n" + lines + "\n" + indent + "}"
  {
    assert "{" + ("\n" + lines) == "{\n" + lines;
  }

  // ---------------------------------------------------------------- documents

  function LimitsFields(l: Limits): seq<Field> {
    [ ("max_rows", Decimal(l.maxRows)),
      ("statement_timeout_ms", Decimal(l.statementTimeoutMs)),
      ("lock_timeout_ms", Decimal(l.lockTimeoutMs))]
  }

  function SettingFields(s: seq<Setting>): seq<Field> {
    seq(|s|, i requires 0 <= i < |s| => (s[i].key, PrintText(s[i].value)))
  }

  function IdentityFields(d: DatabaseIdentity): seq<Field> {
    [ ("database", PrintText(d.database)),
      ("role", PrintText(d.role)),
      ("search_path", PrintText(d.searchPath)),
      ("server_version_num", PrintInt(d.serverVersionNum)),
      ("endpoint_sha256", PrintText(d.endpointSha256)),
      ("server_address", OrNull(d.serverAddress)),
      ("server_port", if d.serverPort.Some? then PrintInt(d.serverPort.value) else "null"),
      ("settings", Record(SettingFields(d.settings)))]
  }

  function PreconditionsFields(p: PlanPreconditions): seq<Field> {
    [ ("database", Record(IdentityFields(p.database))),
      ("canonical_table", PrintText(p.canonicalTable)),
      ("table_schema_sha256", PrintText(p.tableSchemaSha256)),
      ("target_count", Decimal(p.targetCount)),
      ("target_set_sha256", PrintText(p.targetSetSha256)),
      ("relation_kind", PrintText(p.relationKind)),
      ("user_trigger_count", Decimal(p.userTriggerCount)),
      ("rewrite_rule_count", Decimal(p.rewriteRuleCount)),
      ("row_security", Truth(p.rowSecurity))]
  }

  function PlanFields(p: Plan): seq<Field> {
    [ ("schema_version", PrintText(p.schemaVersion)),
      ("tool_version", PrintText(p.toolVersion)),
      ("plan_id", PrintText(p.planId)),
      ("created_at_unix_ms", Decimal(p.createdAtUnixMs)),
      ("expires_at_unix_ms", Decimal(p.expiresAtUnixMs)),
      ("statement_kind", Kind(p.statementKind)),
      ("requested_table", PrintText(p.requestedTable)),
      ("sql_file_sha256", PrintText(p.sqlFileSha256)),
      ("normalized_sql_sha256", PrintText(p.normalizedSqlSha256)),
      ("count_query_sha256", OrNull(p.countQuerySha256)),
      ("target_query_sha256", OrNull(p.targetQuerySha256)),
      ("explain_sha256", PrintText(p.explainSha256)),
      ("limits", Record(LimitsFields(p.limits))),
      ("transport_policy", Transport(p.transportPolicy)),
      ("allow_triggers", Truth(p.allowTriggers)),
      ("allow_row_security", Truth(p.allowRowSecurity)),
      ("preconditions", Record(PreconditionsFields(p.preconditions))),
      ("plan_sha256", OrNull(p.planSha256))]
  }

  function ResultFields(r: ReceiptResult): seq<Field> {
    [ ("affected_rows", if r.affectedRows.Some? then Decimal(r.affectedRows.value) else "null"),
      ("reason_code", PrintText(r.reasonCode)),
      ("sqlstate", OrNull(r.sqlstate)),
      ("database", if r.database.Some? then Record(IdentityFields(r.database.value)) else "null"),
      ("table_schema_sha256", OrNull(r.tableSchemaSha256))]
  }

  function EventFields(e: ReceiptEvent): seq<Field> {
    [ ("schema_version", PrintText(e.schemaVersion)),
      ("tool_version", PrintText(e.toolVersion)),
      ("receipt_id", PrintText(e.receiptId)),
      ("sequence", Decimal(e.sequence)),
      ("timestamp_unix_ms", Decimal(e.timestampUnixMs)),
      ("plan_sha256", PrintText(e.planSha256)),
      ("sql_file_sha256", PrintText(e.sqlFileSha256)),
      ("previous_event_sha256", OrNull(e.previousEventSha256)),
      ("state", State(e.state)),
      ("result", if e.result.Some? then Record(ResultFields(e.result.value)) else "null"),
      ("event_sha256", OrNull(e.eventSha256))]
  }

  function ColumnText(c: ColumnEvidence): string {
    Record([ ("position", PrintInt(c.position)),
             ("name", PrintText(c.name)),
             ("data_type", PrintText(c.dataType)),
             ("not_null", Truth(c.notNull)),
             ("has_default", Truth(c.hasDefault)),
             ("default_expression", OrNull(c.defaultExpression)),
             ("identity", PrintText(c.identity)),
             ("generated", PrintText(c.generated))])
  }

  function DefinitionText(d: NamedDefinition): string {
    Record([("name", PrintText(d.name)), ("definition", PrintText(d.definition))])
  }

  function EvidenceFields(e: TableEvidence): seq<Field> {
    [ ("schema", PrintText(e.schema)),
      ("table", PrintText(e.table)),
      ("oid", PrintInt(e.oid)),
      ("relation_kind", PrintText(e.relationKind)),
      ("persistence", PrintText(e.persistence)),
      ("row_security", Truth(e.rowSecurity)),
      ("force_row_security", Truth(e.forceRowSecurity)),
      ("columns", List(e.columns, ColumnText)),
      ("constraints", List(e.constraints, DefinitionText)),
      ("indexes", List(e.indexes, DefinitionText)),
      ("user_triggers", List(e.userTriggers, DefinitionText)),
      ("rewrite_rules", List(e.rewriteRules, DefinitionText)),
      ("policies", List(e.policies, DefinitionText)),
      ("inheritance_relations", List(e.inheritanceRelations, PrintText)),
      ("referential_actions", List(e.referentialActions, DefinitionText))]
  }

  // ---------------------------------------------------------------- the printed documents

  lemma ValueTexts(o: Option<string>, k: StatementKind, t: TransportPolicy, s: ReceiptState)
    ensures Print(TextOrNull(o), Compact) == OrNull(o)
    ensures Print(String(KindText(k)), Compact) == Kind(k)
    ensures Print(String(TransportText(t)), Compact) == Transport(t)
    ensures Print(String(StateText(s)), Compact) == State(s)
  {
    hide PrintText;
  }

  lemma LimitsText(l: Limits)
    ensures Print(LimitsJson(l), Compact) == Record(LimitsFields(l))
  {
    hide PrintText, Decimal;
    ObjectText(LimitsJson(l).members);
    assert FieldsOf(LimitsJson(l).members) == LimitsFields(l);
  }

  lemma SettingsText(s: seq<Setting>)
    ensures Print(Object(SettingMembers(s)), Compact) == Record(SettingFields(s))
  {
    hide PrintText;
    if s != [] {
      ObjectText(SettingMembers(s));
      assert FieldsOf(SettingMembers(s)) == SettingFields(s);
    }
  }

  lemma IdentityText(d: DatabaseIdentity)
    ensures Print(IdentityJson(d), Compact) == Record(IdentityFields(d))
  {
    hide PrintText, Decimal, SettingMembers, SettingFields, PrintInt, Record, Joined;
    SettingsText(d.settings);
    ObjectText(IdentityJson(d).members);
    assert FieldsOf(IdentityJson(d).members) == IdentityFields(d);
  }

  lemma PreconditionsText(p: PlanPreconditions)
    ensures Print(PreconditionsJson(p), Compact) == Record(PreconditionsFields(p))
  {
    hide PrintText, Decimal, IdentityJson, IdentityFields, Record, Joined;
    IdentityText(p.database);
    ObjectText(PreconditionsJson(p).members);
    assert FieldsOf(PreconditionsJson(p).members) == PreconditionsFields(p);
  }

  /** The bytes of a plan. */
  lemma PlanText(p: Plan)
    ensures Print(PlanJson(p), Compact) == Record(PlanFields(p))
  {
    hide PrintText, Decimal, PreconditionsJson, PreconditionsFields, LimitsJson, LimitsFields, Record, Joined, PrintMembers;
    hide TextOrNull, OrNull, KindText, Kind, TransportText, Transport;
    ValueTexts(p.countQuerySha256, p.statementKind, p.transportPolicy, Prepared);
    ValueTexts(p.targetQuerySha256, p.statementKind, p.transportPolicy, Prepared);
    ValueTexts(p.planSha256, p.statementKind, p.transportPolicy, Prepared);
    LimitsText(p.limits);
    PreconditionsText(p.preconditions);
    ObjectText(PlanJson(p).members);
    var x, y := FieldsOf(PlanJson(p).members), PlanFields(p);
    assert |x| == |y| == 18;
    forall i | 0 <= i < 18 ensures x[i] == y[i] {
    }
    assert x == y;
  }

  lemma ResultText(r: ReceiptResult)
    ensures Print(ResultJson(r), Compact) == Record(ResultFields(r))
  {
    hide PrintText, Decimal, IdentityJson, IdentityFields, Record, Joined;
    if r.database.Some? {
      IdentityText(r.database.value);
    }
    ObjectText(ResultJson(r).members);
    assert FieldsOf(ResultJson(r).members) == ResultFields(r);
  }

  lemma EventBytes(e: ReceiptEvent)
    ensures Print(EventJson(e), Compact) == Record(EventFields(e))
  {
    hide PrintText, Decimal, ResultJson, ResultFields, Record, Joined, PrintMembers, TextOrNull, OrNull, StateText, State;
    ValueTexts(e.previousEventSha256, Update, TlsRequired, e.state);
    ValueTexts(e.eventSha256, Update, TlsRequired, e.state);
    if e.result.Some? {
      ResultText(e.result.value);
    }
    ObjectText(EventJson(e).members);
    assert FieldsOf(EventJson(e).members) == EventFields(e);
  }

  lemma {:induction false} ItemsText<T>(items: seq<T>, json: T -> Json, text: T -> string)
    requires items != [] && forall i | 0 <= i < |items| :: Print(json(items[i]), Compact) == text(items[i])
    ensures PrintItems(ListJson(items, json).items, Compact) == Elements(items, text)
  {
    var printed := ListJson(items, json).items;
    assert printed[0] == json(items[0]);
    assert "" + text(items[0]) == text(items[0]);
    if |items| > 1 {
      ItemsText(items[1..], json, text);
      assert printed[1..] == ListJson(items[1..], json).items;
    }
  }

  lemma ListText<T>(items: seq<T>, json: T -> Json, text: T -> string)
    requires forall i | 0 <= i < |items| :: Print(json(items[i]), Compact) == text(items[i])
    ensures Print(ListJson(items, json), Compact) == List(items, text)
  {
    if items != [] {
      ItemsText(items, json, text);
      var s := Elements(items, text);
      assert "[" + s + "" + "]" == "[" + s + "]";
    }
  }

  lemma DefinitionsText(ds: seq<NamedDefinition>)
    ensures Print(ListJson(ds, DefinitionJson), Compact) == List(ds, DefinitionText)
  {
    forall i | 0 <= i < |ds| ensures Print(DefinitionJson(ds[i]), Compact) == DefinitionText(ds[i]) {
      hide PrintText;
      var members := DefinitionJson(ds[i]).members;
      ObjectText(members);
      assert FieldsOf(members) == [("name", PrintText(ds[i].name)), ("definition", PrintText(ds[i].definition))];
    }
    hide DefinitionJson, DefinitionText;
    ListText(ds, DefinitionJson, DefinitionText);
  }

  lemma OneColumnText(c: ColumnEvidence)
    ensures Print(ColumnJson(c), Compact) == ColumnText(c)
  {
    hide PrintText, PrintInt, TextOrNull, OrNull, PrintMembers;
    ValueTexts(c.defaultExpression, Update, TlsRequired, Prepared);
    var members := ColumnJson(c).members;
    ObjectText(members);
    hide Record;
    assert FieldsOf(members)
        == [ ("position", PrintInt(c.position)), ("name", PrintText(c.name)), ("data_type", PrintText(c.dataType)),
             ("not_null", Truth(c.notNull)), ("has_default", Truth(c.hasDefault)),
             ("default_expression", OrNull(c.defaultExpression)), ("identity", PrintText(c.identity)),
             ("generated", PrintText(c.generated))];
  }

  lemma ColumnsText(cs: seq<ColumnEvidence>)
    ensures Print(ListJson(cs, ColumnJson), Compact) == List(cs, ColumnText)
  {
    forall i | 0 <= i < |cs| ensures Print(ColumnJson(cs[i]), Compact) == ColumnText(cs[i]) {
      OneColumnText(cs[i]);
    }
    hide ColumnJson, ColumnText;
    ListText(cs, ColumnJson, ColumnText);
  }

  lemma TextsText(ts: seq<string>)
    ensures Print(ListJson(ts, TextJson), Compact) == List(ts, PrintText)
  {
    hide PrintText;
    ListText(ts, TextJson, PrintText);
  }

  lemma EvidenceText(e: TableEvidence)
    ensures Print(EvidenceJson(e), Compact) == Record(EvidenceFields(e))
  {
    hide PrintText, PrintInt, ListJson, List, Record, Joined, PrintMembers, ColumnJson, ColumnText, DefinitionJson;
    hide DefinitionText, TextJson;
    ColumnsText(e.columns);
    DefinitionsText(e.constraints);
    DefinitionsText(e.indexes);
    DefinitionsText(e.userTriggers);
    DefinitionsText(e.rewriteRules);
    DefinitionsText(e.policies);
    TextsText(e.inheritanceRelations);
    DefinitionsText(e.referentialActions);
    ObjectText(EvidenceJson(e).members);
    assert FieldsOf(EvidenceJson(e).members) == EvidenceFields(e);
  }

  lemma ObjectFile(members: seq<Member>)
    requires members != []
    ensures Print(Object(members), Pretty(0)) + "\n" == "{\n" + Indented(PrettyFields(members, 1), "  ") + "\n}\n"
  {
    hide Indented, PrettyFields, Print;
    PrettyExactly(members, 0);
    var lines := Indented(PrettyFields(members, 1), "  ");
    assert Spaces(2) == "  " && Spaces(0) == "";
    assert "{\n" + lines + "\n" + "" + "}" + "\n" == "{\n" + lines + "\n}\n";
  }

  /** The bytes of a plan file: one field a line, and a line feed at the end. */
  lemma PlanFileBytes(p: Plan)
    ensures PlanJson(p).Object?
    ensures PlanFile(p) == "{\n" + Indented(PrettyFields(PlanJson(p).members, 1), "  ") + "\n}\n"
  {
    hide Indented, PrettyFields, Print, LimitsJson, PreconditionsJson, TextOrNull, KindText, TransportText;
    ObjectFile(PlanJson(p).members);
  }

  // ---------------------------------------------------------------- strict reading

  predicate HasField(fields: seq<Field>, name: string) {
    exists k | 0 <= k < |fields| :: fields[k].0 == name
  }

  predicate HasMember(members: seq<Member>, name: string) {
    exists i | 0 <= i < |members| :: members[i].key == name
  }

  /** Every member has one of the written names, each at most once, and only a null may be missing. */
  predicate StrictlyRead(members: seq<Member>, fields: seq<Field>) {
    && (forall i | 0 <= i < |members| :: HasField(fields, members[i].key))
    && (forall i, j | 0 <= i < j < |members| :: members[i].key != members[j].key)
    && (forall k | 0 <= k < |fields| && fields[k].1 != "null" :: HasMember(members, fields[k].0))
  }

  lemma {:induction false} FoundIsThere(members: seq<Member>, name: string)
    ensures Codec.Lookup(members, name).Some? ==> HasMember(members, name)
  {
    if members != [] && members[0].key != name {
      FoundIsThere(members[1..], name);
      if Codec.Lookup(members, name).Some? {
        var i :| 0 <= i < |members[1..]| && members[1..][i].key == name;
        assert members[i + 1].key == name;
      }
    }
  }

  lemma ViewIsStrict(members: seq<Member>, names: seq<string>, fields: seq<Field>)
    requires Codec.View(Object(members), names).Some? && |fields| == |names|
    requires forall k | 0 <= k < |names| :: fields[k].0 == names[k]
    requires forall k | 0 <= k < |names| && Codec.View(Object(members), names).value[k].None? :: fields[k].1 == "null"
    ensures StrictlyRead(members, fields)
  {
    forall i | 0 <= i < |members| ensures HasField(fields, members[i].key) {
      assert members[i].key in names;
      var k :| 0 <= k < |names| && names[k] == members[i].key;
      assert fields[k].0 == members[i].key;
    }
    forall k | 0 <= k < |fields| && fields[k].1 != "null" ensures HasMember(members, fields[k].0) {
      FoundIsThere(members, names[k]);
    }
  }

  /** What must not be missing. */
  lemma NothingRead()
    ensures Codec.DecodeLimits(None).None? && Codec.DecodePreconditions(None).None?
    ensures Codec.AsKind(None).None? && Codec.AsTransport(None).None? && Codec.AsState(None).None?
    ensures Codec.AsText(None).None? && Codec.AsU64(None).None? && Codec.AsU32(None).None? && Codec.AsBool(None).None?
    ensures Codec.AsOptionalText(None) == Some(None) && Codec.AsOptionalResult(None) == Some(None)
  {
  }

  lemma IdentityIsStrict(members: seq<Member>)
    ensures var d := Codec.DecodeIdentity(Object(members)); d.Some? ==> StrictlyRead(members, IdentityFields(d.value))
  {
    hide Codec.View, StrictlyRead, PrintText, PrintInt, Record, SettingFields;
    var d := Codec.DecodeIdentity(Object(members));
    if d.Some? {
      ViewIsStrict(members, Codec.IDENTITY_FIELDS, IdentityFields(d.value));
    }
  }

  lemma LimitsAreStrict(members: seq<Member>)
    ensures var l := Codec.DecodeLimits(Some(Object(members))); l.Some? ==> StrictlyRead(members, LimitsFields(l.value))
  {
    hide Codec.View, StrictlyRead, Decimal;
    var l := Codec.DecodeLimits(Some(Object(members)));
    if l.Some? {
      ViewIsStrict(members, Codec.LIMITS_FIELDS, LimitsFields(l.value));
    }
  }

  lemma PreconditionsAreStrict(members: seq<Member>)
    ensures var p := Codec.DecodePreconditions(Some(Object(members)));
      p.Some? ==> StrictlyRead(members, PreconditionsFields(p.value))
  {
    hide Codec.View, StrictlyRead, Decimal, PrintText, Codec.DecodeIdentity, IdentityFields, Record;
    var p := Codec.DecodePreconditions(Some(Object(members)));
    if p.Some? {
      ViewIsStrict(members, Codec.PRECONDITION_FIELDS, PreconditionsFields(p.value));
    }
  }

  lemma ResultIsStrict(members: seq<Member>)
    ensures var r := Codec.DecodeResult(Object(members)); r.Some? ==> StrictlyRead(members, ResultFields(r.value))
  {
    hide Codec.View, StrictlyRead, Decimal, PrintText, Codec.DecodeIdentity, IdentityFields, Record;
    var r := Codec.DecodeResult(Object(members));
    if r.Some? {
      ViewIsStrict(members, Codec.RESULT_FIELDS, ResultFields(r.value));
    }
  }

  /** A plan object is read only if it has the fields of the plan it is read as, and no others. */
  lemma PlanIsStrict(members: seq<Member>)
    ensures var p := Codec.DecodePlan(Object(members)); p.Some? ==> StrictlyRead(members, PlanFields(p.value))
  {
    hide Codec.View, StrictlyRead, Decimal, PrintText, Record, LimitsFields, PreconditionsFields, Codec.DecodeLimits, Kind;
    hide Codec.DecodePreconditions, Transport, Truth, Codec.AsKind, Codec.AsTransport, Codec.AsText, Codec.AsU64, Codec.AsBool;
    hide Codec.AsOptionalText;
    NothingRead();
    var p := Codec.DecodePlan(Object(members));
    if p.Some? {
      ViewIsStrict(members, Codec.PLAN_FIELDS, PlanFields(p.value));
    }
  }

  /** So is an event. */
  lemma EventIsStrict(members: seq<Member>)
    ensures var e := Codec.DecodeEvent(Object(members)); e.Some? ==> StrictlyRead(members, EventFields(e.value))
  {
    hide Codec.View, StrictlyRead, Decimal, PrintText, Record, ResultFields, Codec.DecodeResult, State, Codec.AsState;
    hide Codec.AsText, Codec.AsU64, Codec.AsU32, Codec.AsOptionalText, Codec.AsOptionalResult;
    NothingRead();
    var e := Codec.DecodeEvent(Object(members));
    if e.Some? {
      ViewIsStrict(members, Codec.EVENT_FIELDS, EventFields(e.value));
    }
  }

  // ---------------------------------------------------------------- what is hashed and written

  /** The fields without the seal, which is null under its own hash. */
  function Unsealed(fields: seq<Field>): seq<Field>
    requires fields != []
  {
    fields[..|fields| - 1] + [(fields[|fields| - 1].0, "null")]
  }

  /**
   The digests: a plan's seal and an event's hash are over the compact document with null in the place of the
   digest itself, a table's over its catalog evidence.
   */
  lemma HashedBytes(hash: Hasher, p: Plan, e: ReceiptEvent, t: TableEvidence)
    ensures VerifiedPlanSha256(hash, p).Ok? ==>
              VerifiedPlanSha256(hash, p).value == Sha256(hash, Record(Unsealed(PlanFields(p))))
    ensures EventSha256(hash, e) == Sha256(hash, Record(Unsealed(EventFields(e))))
    ensures TableSchemaSha256(hash, t) == Sha256(hash, Record(EvidenceFields(t)))
  {
    hide Record, Sha256, Print, PlanJson, EventJson, EvidenceJson;
    PlanText(p.(planSha256 := None));
    EventBytes(e.(eventSha256 := None));
    EvidenceText(t);
    UnsealedPlan(p);
    UnsealedEvent(e);
    hide PlanFields, EventFields, EvidenceFields;
  }

  lemma UnsealedPlan(p: Plan)
    ensures PlanFields(p.(planSha256 := None)) == Unsealed(PlanFields(p))
  {
    hide PrintText, Decimal, Record, PreconditionsFields, LimitsFields;
  }

  lemma UnsealedEvent(e: ReceiptEvent)
    ensures EventFields(e.(eventSha256 := None)) == Unsealed(EventFields(e))
  {
    hide PrintText, Decimal, Record, ResultFields;
  }

  /** The first line of a receipt: the fields of a prepared event. */
  function PreparedFields(hash: Hasher, plan: string, sql: string, now: U64, seal: string): seq<Field> {
    [ ("schema_version", PrintText("dmlpact.receipt-event.v1")),
      ("tool_version", PrintText("0.3.0")),
      ("receipt_id", PrintText(Sha256(hash, plan + ":" + sql + ":" + Decimal(now)))),
      ("sequence", Decimal(1)),
      ("timestamp_unix_ms", Decimal(now)),
      ("plan_sha256", PrintText(plan)),
      ("sql_file_sha256", PrintText(sql)),
      ("previous_event_sha256", "null"),
      ("state", PrintText("prepared")),
      ("result", "null"),
      ("event_sha256", seal)]
  }

  /** The second line: the fields of the event that continues a prepared one. */
  function TerminalFields(prepared: ReceiptEvent, state: ReceiptState, result: ReceiptResult, now: U64, seal: string): seq<Field> {
    [ ("schema_version", PrintText("dmlpact.receipt-event.v1")),
      ("tool_version", PrintText("0.3.0")),
      ("receipt_id", PrintText(prepared.receiptId)),
      ("sequence", Decimal(2)),
      ("timestamp_unix_ms", Decimal(now)),
      ("plan_sha256", PrintText(prepared.planSha256)),
      ("sql_file_sha256", PrintText(prepared.sqlFileSha256)),
      ("previous_event_sha256", OrNull(prepared.eventSha256)),
      ("state", State(state)),
      ("result", Record(ResultFields(result))),
      ("event_sha256", seal)]
  }

  /** The bytes of a receipt: each line is its event with the digest of the event in it, and a line feed. */
  lemma ReceiptBytes(hash: Hasher, plan: string, sql: string, now: U64, state: ReceiptState, result: ReceiptResult, later: U64)
    ensures var e := PreparedFor(hash, plan, sql, now);
      EventLine(e) == Record(PreparedFields(hash, plan, sql, now,
                                            PrintText(Sha256(hash, Record(PreparedFields(hash, plan, sql, now, "null")))))) + "\n"
    ensures var e := PreparedFor(hash, plan, sql, now);
      var f := FinalEvent(hash, e, state, result, later);
      EventLine(f) == Record(TerminalFields(e, state, result, later,
                                            PrintText(Sha256(hash, Record(TerminalFields(e, state, result, later, "null")))))) + "\n"
  {
    hide Record, Sha256, Print, EventJson, PrintText, Decimal, ResultFields, State;
    var e := PreparedFor(hash, plan, sql, now);
    var f := FinalEvent(hash, e, state, result, later);
    EventBytes(e);
    EventBytes(e.(eventSha256 := None));
    EventBytes(f);
    EventBytes(f.(eventSha256 := None));
    PreparedState();
  }

  lemma PreparedState()
    ensures State(Prepared) == PrintText("prepared")
  {
  }
}

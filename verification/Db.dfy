/** Table names and the table policy (src/db.rs). */
module Db {
  import opened Wrappers
  import opened Json
  import opened JsonRoundTrip
  import opened Integrity
  import opened Model

  /** A table by its schema and its name. */
  datatype TableId = TableId(schema: string, table: string)

  function DoubleQuotes(s: string): string {
    if s == "" then "" else (if s[0] == '\"' then "\"\"" else [s[0]]) + DoubleQuotes(s[1..])
  }

  function QuoteIdentifier(s: string): string {
    "\"" + DoubleQuotes(s) + "\""
  }

  function CanonicalName(id: TableId): string {
    QuoteIdentifier(id.schema) + "." + QuoteIdentifier(id.table)
  }

  function IdOf(evidence: TableEvidence): TableId {
    TableId(evidence.schema, evidence.table)
  }

  function CanonicalTable(evidence: TableEvidence): string {
    CanonicalName(IdOf(evidence))
  }

  /** PostgreSQL's reading of a quoted identifier, after its opening quote. */
  function ReadQuoted(s: string): (r: Parsed<string>)
    ensures r.Good? ==> |r.rest| < |s|
    decreases |s|
  {
    if s == "" then Bad
    else if s[0] == '\"' then
      if |s| >= 2 && s[1] == '\"' then
        var (tail, rest) :- ReadQuoted(s[2..]);
        Good("\"" + tail, rest)
      else Good("", s[1..])
    else
      var (tail, rest) :- ReadQuoted(s[1..]);
      Good([s[0]] + tail, rest)
  }

  /** The table a quoted, schema-qualified name stands for. */
  function TableNamed(name: string): Option<TableId> {
    if name == "" || name[0] != '\"' then None
    else match ReadQuoted(name[1..])
      case Bad => None
      case Good(schema, rest) =>
        if |rest| < 2 || rest[0] != '.' || rest[1] != '\"' then None
        else match ReadQuoted(rest[2..])
          case Bad => None
          case Good(table, rest2) => if rest2 == "" then Some(TableId(schema, table)) else None
  }

  lemma {:induction false} QuotedRoundTrip(s: string, t: string)
    requires t == "" || t[0] != '\"'
    ensures ReadQuoted(DoubleQuotes(s) + ("\"" + t)) == Good(s, t)
  {
    var all := DoubleQuotes(s) + ("\"" + t);
    if s == "" {
      assert all == "\"" + t && all[1..] == t;
    } else {
      QuotedRoundTrip(s[1..], t);
      var rest := DoubleQuotes(s[1..]) + ("\"" + t);
      if s[0] == '\"' {
        assert all == "\"\"" + rest && all[2..] == rest;
        assert "\"" + s[1..] == s;
      } else {
        assert all == [s[0]] + rest && all[1..] == rest;
        assert [s[0]] + s[1..] == s;
      }
    }
  }

  lemma NameSplits(name: string, u: string, schema: string, v: string, table: string)
    requires name == "\"" + u && ReadQuoted(u) == Good(schema, ".\"" + v) && ReadQuoted(v) == Good(table, "")
    ensures TableNamed(name) == Some(TableId(schema, table))
  {
    hide ReadQuoted;
    assert name[1..] == u;
    assert (".\"" + v)[2..] == v;
  }

  /** The rendered name stands for its own table, whatever quotes and dots the two names contain. */
  lemma CanonicalRoundTrip(id: TableId)
    ensures TableNamed(CanonicalName(id)) == Some(id)
  {
    hide ReadQuoted, DoubleQuotes, TableNamed;
    var v := DoubleQuotes(id.table) + ("\"" + "");
    var u := DoubleQuotes(id.schema) + ("\"" + (".\"" + v));
    QuotedRoundTrip(id.schema, ".\"" + v);
    QuotedRoundTrip(id.table, "");
    assert CanonicalName(id) == "\"" + u;
    NameSplits(CanonicalName(id), u, id.schema, v, id.table);
  }

  /** Two tables with one rendered name are one table. */
  lemma CanonicalInjective(a: TableId, b: TableId)
    requires CanonicalName(a) == CanonicalName(b)
    ensures a == b
  {
    CanonicalRoundTrip(a);
    CanonicalRoundTrip(b);
  }

  // ---------------------------------------------------------------- the catalog fingerprint

  function TableSchemaSha256(hash: Hasher, evidence: TableEvidence): string {
    Sha256Json(hash, EvidenceJson(evidence))
  }

  lemma ListBinds<T>(a: seq<T>, b: seq<T>, f: T -> Json)
    requires ListJson(a, f) == ListJson(b, f)
    requires forall i, j | 0 <= i < |a| && 0 <= j < |b| && f(a[i]) == f(b[j]) :: a[i] == b[j]
    ensures a == b
  {
    var x, y := ListJson(a, f).items, ListJson(b, f).items;
    assert |a| == |x| == |y| == |b|;
    forall i | 0 <= i < |a| ensures a[i] == b[i] {
      assert x[i] == f(a[i]) && y[i] == f(b[i]);
    }
  }

  lemma DefinitionBinds(a: NamedDefinition, b: NamedDefinition)
    ensures DefinitionJson(a) == DefinitionJson(b) ==> a == b
  {
    var x, y := DefinitionJson(a).members, DefinitionJson(b).members;
    assert x == y ==> x[0] == y[0] && x[1] == y[1];
  }

  lemma ColumnBinds(a: ColumnEvidence, b: ColumnEvidence)
    ensures ColumnJson(a) == ColumnJson(b) ==> a == b
  {
    var x, y := ColumnJson(a).members, ColumnJson(b).members;
    if ColumnJson(a) == ColumnJson(b) {
      assert x[0] == y[0] && x[1] == y[1] && x[2] == y[2] && x[3] == y[3];
      assert x[4] == y[4] && x[5] == y[5] && x[6] == y[6] && x[7] == y[7];
    }
  }

  lemma DefinitionsBind(a: seq<NamedDefinition>, b: seq<NamedDefinition>)
    requires ListJson(a, DefinitionJson) == ListJson(b, DefinitionJson)
    ensures a == b
  {
    hide DefinitionJson;
    forall i, j | 0 <= i < |a| && 0 <= j < |b| && DefinitionJson(a[i]) == DefinitionJson(b[j]) ensures a[i] == b[j] {
      DefinitionBinds(a[i], b[j]);
    }
    ListBinds(a, b, DefinitionJson);
  }

  lemma ColumnsBind(a: seq<ColumnEvidence>, b: seq<ColumnEvidence>)
    requires ListJson(a, ColumnJson) == ListJson(b, ColumnJson)
    ensures a == b
  {
    hide ColumnJson;
    forall i, j | 0 <= i < |a| && 0 <= j < |b| && ColumnJson(a[i]) == ColumnJson(b[j]) ensures a[i] == b[j] {
      ColumnBinds(a[i], b[j]);
    }
    ListBinds(a, b, ColumnJson);
  }

  lemma EvidenceBinds(a: TableEvidence, b: TableEvidence)
    requires EvidenceJson(a) == EvidenceJson(b)
    ensures a == b
  {
    hide ListJson, ColumnJson, DefinitionJson;
    var x, y := EvidenceJson(a).members, EvidenceJson(b).members;
    assert x[0] == y[0] && x[1] == y[1] && x[2] == y[2] && x[3] == y[3] && x[4] == y[4] && x[5] == y[5] && x[6] == y[6];
    assert x[7] == y[7] && x[8] == y[8] && x[9] == y[9] && x[10] == y[10] && x[11] == y[11] && x[12] == y[12];
    assert x[13] == y[13] && x[14] == y[14];
    ColumnsBind(a.columns, b.columns);
    DefinitionsBind(a.constraints, b.constraints);
    DefinitionsBind(a.indexes, b.indexes);
    DefinitionsBind(a.userTriggers, b.userTriggers);
    DefinitionsBind(a.rewriteRules, b.rewriteRules);
    DefinitionsBind(a.policies, b.policies);
    ListBinds(a.inheritanceRelations, b.inheritanceRelations, TextJson);
    DefinitionsBind(a.referentialActions, b.referentialActions);
  }

  /** Equal schema hashes mean equal catalog evidence in every field, or a collision is exhibited. */
  lemma SchemaBinding(hash: Hasher, a: TableEvidence, b: TableEvidence)
    requires TableSchemaSha256(hash, a) == TableSchemaSha256(hash, b)
    ensures a == b || Collision(hash, Print(EvidenceJson(a), Compact), Print(EvidenceJson(b), Compact))
  {
    hide EvidenceJson, Print;
    DigestBinds(hash, Print(EvidenceJson(a), Compact), Print(EvidenceJson(b), Compact));
    if Print(EvidenceJson(a), Compact) == Print(EvidenceJson(b), Compact) {
      PrintInjective(EvidenceJson(a), EvidenceJson(b), Compact);
      EvidenceBinds(a, b);
    }
  }

  // ---------------------------------------------------------------- the table policy

  predicate Implicit(c: ColumnEvidence) {
    c.defaultExpression.Some? || c.identity != "" || c.generated != ""
  }

  function PolicyError(code: string): Option<AppError> {
    Some(AppError(Policy, code))
  }

  /** The reason why a table is outside the safety boundary, if there is one (src/db.rs:286-353). */
  function TablePolicyError(e: TableEvidence, kind: StatementKind, allowTriggers: bool, allowRowSecurity: bool)
    : Option<AppError>
  {
    if e.relationKind != "r" || e.persistence != "p" then PolicyError("relation_kind_denied")
    else if e.rewriteRules != [] then PolicyError("rewrite_rules_denied")
    else if e.inheritanceRelations != [] then PolicyError("table_inheritance_denied")
    else if e.referentialActions != [] then PolicyError("referential_actions_denied")
    else if !allowTriggers && e.userTriggers != [] then PolicyError("user_triggers_denied")
    else if !allowRowSecurity && (e.rowSecurity || e.forceRowSecurity || e.policies != []) then
      PolicyError("row_security_denied")
    else if kind == StatementKind.Insert && exists c | c in e.columns :: Implicit(c) then
      PolicyError("insert_implicit_behavior_denied")
    else None
  }

  /** The tables inside the safety boundary, given what the caller acknowledges. */
  predicate Admissible(e: TableEvidence, kind: StatementKind, allowTriggers: bool, allowRowSecurity: bool) {
    && e.relationKind == "r" && e.persistence == "p"
    && e.rewriteRules == [] && e.inheritanceRelations == [] && e.referentialActions == []
    && (e.userTriggers != [] ==> allowTriggers)
    && (e.rowSecurity || e.forceRowSecurity || e.policies != [] ==> allowRowSecurity)
    && (kind == StatementKind.Insert ==> forall i | 0 <= i < |e.columns| :: !Implicit(e.columns[i]))
  }

  /** The policy admits exactly these; in particular each acknowledgement covers its own feature and nothing else. */
  lemma PolicyExactly(e: TableEvidence, kind: StatementKind, allowTriggers: bool, allowRowSecurity: bool)
    ensures TablePolicyError(e, kind, allowTriggers, allowRowSecurity).None?
       <==> Admissible(e, kind, allowTriggers, allowRowSecurity)
  {
    if exists c | c in e.columns :: Implicit(c) {
      var c :| c in e.columns && Implicit(c);
      var i :| 0 <= i < |e.columns| && e.columns[i] == c;
    }
  }

  /** The checks of the table policy in their order. */
  function PolicyFindings(e: TableEvidence, kind: StatementKind, allowTriggers: bool, allowRowSecurity: bool)
    : seq<Option<AppError>>
  {
    [ If(!(e.relationKind == "r" && e.persistence == "p"), Policy, "relation_kind_denied"),
      If(e.rewriteRules != [], Policy, "rewrite_rules_denied"),
      If(e.inheritanceRelations != [], Policy, "table_inheritance_denied"),
      If(e.referentialActions != [], Policy, "referential_actions_denied"),
      If(e.userTriggers != [] && !allowTriggers, Policy, "user_triggers_denied"),
      If((e.rowSecurity || e.forceRowSecurity || e.policies != []) && !allowRowSecurity, Policy, "row_security_denied"),
      If(kind == StatementKind.Insert
         && exists i | 0 <= i < |e.columns| ::
              e.columns[i].defaultExpression.Some? || e.columns[i].identity != "" || e.columns[i].generated != "",
         Policy, "insert_implicit_behavior_denied")]
  }

  lemma PolicyReport(e: TableEvidence, kind: StatementKind, allowTriggers: bool, allowRowSecurity: bool)
    ensures Report(PolicyFindings(e, kind, allowTriggers, allowRowSecurity), 0)
         == TablePolicyError(e, kind, allowTriggers, allowRowSecurity)
  {
    var f := PolicyFindings(e, kind, allowTriggers, allowRowSecurity);
    ImplicitColumns(e);
    var _ := [Report(f, 1), Report(f, 2), Report(f, 3), Report(f, 4), Report(f, 5), Report(f, 6), Report(f, 7)];
  }

  /** A table that is not admitted is refused for the first of these reasons. */
  lemma PolicyErrorExactly(e: TableEvidence, kind: StatementKind, allowTriggers: bool, allowRowSecurity: bool, error: AppError)
    ensures TablePolicyError(e, kind, allowTriggers, allowRowSecurity) == Some(error)
       <==> Reports(PolicyFindings(e, kind, allowTriggers, allowRowSecurity), error)
  {
    PolicyReport(e, kind, allowTriggers, allowRowSecurity);
    ReportIs(PolicyFindings(e, kind, allowTriggers, allowRowSecurity), error);
  }

  lemma ImplicitColumns(e: TableEvidence)
    ensures (exists c | c in e.columns :: Implicit(c)) <==>
            exists i | 0 <= i < |e.columns| ::
              e.columns[i].defaultExpression.Some? || e.columns[i].identity != "" || e.columns[i].generated != ""
  {
    if exists c | c in e.columns :: Implicit(c) {
      var c :| c in e.columns && Implicit(c);
      var i :| 0 <= i < |e.columns| && e.columns[i] == c;
      assert Implicit(e.columns[i]);
    }
    if i :| 0 <= i < |e.columns|
            && (e.columns[i].defaultExpression.Some? || e.columns[i].identity != "" || e.columns[i].generated != "") {
      assert e.columns[i] in e.columns && Implicit(e.columns[i]);
    }
  }

  /** An ordinary table on which a statement does to the rows what it says and nothing else. */
  predicate Plain(e: TableEvidence) {
    && e.relationKind == "r"
    && e.rewriteRules == [] && e.userTriggers == [] && e.inheritanceRelations == [] && e.referentialActions == []
    && !e.rowSecurity && !e.forceRowSecurity && e.policies == []
  }

  /** Without acknowledgements, only plain tables pass. */
  lemma UnacknowledgedIsPlain(e: TableEvidence, kind: StatementKind)
    requires TablePolicyError(e, kind, false, false).None?
    ensures Plain(e)
  {
  }
}

/**
 The SQL policy over a reduced syntax tree, and the two queries derived from a statement (src/sql.rs).

 The long lists of syntax flags that the policy refuses outright are one flag each (`extras`).  The parser
 and the printer of the SQL library are parameters.
 */
module Sql {
  import opened Wrappers
  import opened Json
  import opened Integrity
  import opened Model

  datatype Value = VNull | VBool(b: bool) | VInt(n: int) | VText(s: string)

  datatype Ident = Ident(value: string, quoted: bool)

  datatype BinaryOp = And | Or | Eq | Lt | Plus | Divide | Operator(symbol: string)

  datatype Expr =
    | Identifier(id: Ident)
    | Compound(qualifier: Ident, column: Ident)
    | Literal(v: Value)
    | Placeholder(name: string)
    | Nested(e: Expr)
    | Not(e: Expr)
    | IsNull(e: Expr, negated: bool)
    | Binary(op: BinaryOp, left: Expr, right: Expr)
    | Between(e: Expr, low: Expr, high: Expr, negated: bool)
    | InList(e: Expr, items: seq<Expr>, negated: bool)
    | Case(conditions: seq<Expr>, results: seq<Expr>, otherwise: Expr)
    | Cast(e: Expr, typeName: string)
    | Function(name: string, args: seq<Expr>)
    | Subquery(query: Query)
    | Exists(query: Query, negated: bool)
    | InSubquery(e: Expr, query: Query, negated: bool)

  /** `SELECT projection FROM table WHERE filter` inside an expression. */
  datatype Query = Query(table: string, projection: Expr, filter: Expr)

  /** `name [AS alias]`; `extras` stands for arguments, hints, samples, column aliases and the like. */
  datatype TableRef = TableRef(name: seq<Ident>, alias: Option<Ident>, joins: bool, extras: bool)

  datatype Assignment = Assignment(column: Ident, value: Expr)

  datatype InsertSource = NoSource | SelectSource(modifiers: bool) | ValuesSource(rows: seq<seq<Expr>>, modifiers: bool, oddForm: bool)

  datatype Statement =
    | InsertStatement(target: Option<seq<Ident>>, columns: seq<Ident>, source: InsertSource, extras: bool)
    | UpdateStatement(table: TableRef, assignments: seq<Assignment>, selection: Option<Expr>, extras: bool)
    | DeleteStatement(tables: seq<TableRef>, withFrom: bool, selection: Option<Expr>, extras: bool)
    | OtherStatement(expressions: seq<Expr>)

  function LowerChar(c: char): char {
    if 'A' <= c <= 'Z' then (c as int + 32) as char else c
  }

  function Lower(s: string): (r: string)
    ensures |r| == |s|
    ensures forall i | 0 <= i < |s| :: r[i] as int == s[i] as int + (if 65 <= s[i] as int <= 90 then 32 else 0)
  {
    seq(|s|, i requires 0 <= i < |s| => LowerChar(s[i]))
  }

  /** The name an identifier stands for: PostgreSQL folds the unquoted ones. */
  function NameOf(id: Ident): string {
    if id.quoted then id.value else Lower(id.value)
  }

  // ---------------------------------------------------------------- the rejecting visitor

  /** What makes a node of the tree unsafe by itself (src/sql.rs:409-422). */
  function UnsafeNode(e: Expr): Option<string> {
    match e
    case Function(_, _) => Some("function")
    case Subquery(_) => Some("subquery")
    case Exists(_, _) => Some("subquery")
    case InSubquery(_, _, _) => Some("subquery")
    case Placeholder(_) => Some("placeholder")
    case Identifier(id) => if !id.quoted && Lower(id.value) == "default" then Some("default") else None
    case _ => None
  }

  function FirstOf(a: Option<string>, b: Option<string>): Option<string> {
    if a.Some? then a else b
  }

  /** The first unsafe node in source order; the visitor stops there. */
  function FirstUnsafe(e: Expr): Option<string>
    decreases e, 1
  {
    if UnsafeNode(e).Some? then UnsafeNode(e)
    else match e
      case Nested(a) => FirstUnsafe(a)
      case Not(a) => FirstUnsafe(a)
      case IsNull(a, _) => FirstUnsafe(a)
      case Binary(_, l, r) => FirstOf(FirstUnsafe(l), FirstUnsafe(r))
      case Between(a, lo, hi, _) => FirstOf(FirstUnsafe(a), FirstOf(FirstUnsafe(lo), FirstUnsafe(hi)))
      case InList(a, items, _) => FirstOf(FirstUnsafe(a), FirstUnsafeOf(items))
      case Case(conditions, results, otherwise) =>
        FirstOf(FirstUnsafeOf(conditions), FirstOf(FirstUnsafeOf(results), FirstUnsafe(otherwise)))
      case Cast(a, _) => FirstUnsafe(a)
      case _ => None
  }

  function FirstUnsafeOf(es: seq<Expr>): Option<string>
    decreases es, 0
  {
    if es == [] then None else FirstOf(FirstUnsafe(es[0]), FirstUnsafeOf(es[1..]))
  }

  /** All nodes of an expression in source order, those inside of subqueries included. */
  function Nodes(e: Expr): seq<Expr>
    decreases e, 1
  {
    [e] + match e
          case Nested(a) => Nodes(a)
          case Not(a) => Nodes(a)
          case IsNull(a, _) => Nodes(a)
          case Binary(_, l, r) => Nodes(l) + Nodes(r)
          case Between(a, lo, hi, _) => Nodes(a) + (Nodes(lo) + Nodes(hi))
          case InList(a, items, _) => Nodes(a) + NodesOf(items)
          case Case(conditions, results, otherwise) => NodesOf(conditions) + (NodesOf(results) + Nodes(otherwise))
          case Cast(a, _) => Nodes(a)
          case Function(_, args) => NodesOf(args)
          case Subquery(q) => Nodes(q.projection) + Nodes(q.filter)
          case Exists(q, _) => Nodes(q.projection) + Nodes(q.filter)
          case InSubquery(a, q, _) => Nodes(a) + (Nodes(q.projection) + Nodes(q.filter))
          case _ => []
  }

  function NodesOf(es: seq<Expr>): seq<Expr>
    decreases es, 0
  {
    if es == [] then [] else Nodes(es[0]) + NodesOf(es[1..])
  }

  /** The reason of the first node that has one. */
  function FirstReason(nodes: seq<Expr>): (r: Option<string>)
    ensures r.None? <==> forall n | n in nodes :: UnsafeNode(n).None?
  {
    if nodes == [] then None else FirstOf(UnsafeNode(nodes[0]), FirstReason(nodes[1..]))
  }

  lemma {:induction false} FirstReasonOfTwo(a: seq<Expr>, b: seq<Expr>)
    ensures FirstReason(a + b) == FirstOf(FirstReason(a), FirstReason(b))
  {
    hide UnsafeNode;
    if a == [] {
      assert a + b == b;
    } else {
      FirstReasonOfTwo(a[1..], b);
      assert (a + b)[1..] == a[1..] + b;
    }
  }

  /**
   The visitor reports exactly the first unsafe node in source order; so it lets an expression through
   exactly when no node at any depth is a function call, a subquery, a placeholder or the keyword DEFAULT.
   */
  lemma {:induction false} VisitorIsExact(e: Expr)
    ensures FirstUnsafe(e) == FirstReason(Nodes(e))
    decreases e, 1
  {
    var rest := Nodes(e)[1..];
    assert Nodes(e) == [e] + rest;
    FirstReasonOfTwo([e], rest);
    assert FirstReason([e]) == UnsafeNode(e);
    if UnsafeNode(e).None? {
      VisitorBelow(e);
    }
  }

  lemma {:induction false} VisitorBelow(e: Expr)
    requires UnsafeNode(e).None?
    ensures FirstUnsafe(e) == FirstReason(Nodes(e)[1..])
    decreases e, 0
  {
    assert forall s: seq<Expr> :: ([e] + s)[1..] == s;
    match e
    case Nested(a) => VisitorIsExact(a);
    case Not(a) => VisitorIsExact(a);
    case IsNull(a, _) => VisitorIsExact(a);
    case Cast(a, _) => VisitorIsExact(a);
    case Binary(_, l, r) =>
      VisitorIsExact(l);
      VisitorIsExact(r);
      FirstReasonOfTwo(Nodes(l), Nodes(r));
    case Between(a, lo, hi, _) =>
      VisitorIsExact(a);
      VisitorIsExact(lo);
      VisitorIsExact(hi);
      FirstReasonOfTwo(Nodes(lo), Nodes(hi));
      FirstReasonOfTwo(Nodes(a), Nodes(lo) + Nodes(hi));
    case InList(a, items, _) =>
      VisitorIsExact(a);
      VisitorIsExactOnAll(items);
      FirstReasonOfTwo(Nodes(a), NodesOf(items));
    case Case(conditions, results, otherwise) =>
      VisitorIsExactOnAll(conditions);
      VisitorIsExactOnAll(results);
      VisitorIsExact(otherwise);
      FirstReasonOfTwo(NodesOf(results), Nodes(otherwise));
      FirstReasonOfTwo(NodesOf(conditions), NodesOf(results) + Nodes(otherwise));
    case _ =>
  }

  lemma {:induction false} VisitorIsExactOnAll(es: seq<Expr>)
    ensures FirstUnsafeOf(es) == FirstReason(NodesOf(es))
    decreases es, 2
  {
    hide UnsafeNode;
    if es != [] {
      VisitorIsExact(es[0]);
      VisitorIsExactOnAll(es[1..]);
      FirstReasonOfTwo(Nodes(es[0]), NodesOf(es[1..]));
    }
  }

  /** Every expression directly under a statement, in source order. */
  function StatementExpressions(s: Statement): seq<Expr> {
    match s
    case InsertStatement(_, _, source, _) => if source.ValuesSource? then Flatten(source.rows) else []
    case UpdateStatement(_, assignments, selection, _) =>
      seq(|assignments|, i requires 0 <= i < |assignments| => assignments[i].value)
      + (if selection.Some? then [selection.value] else [])
    case DeleteStatement(_, _, selection, _) => if selection.Some? then [selection.value] else []
    case OtherStatement(expressions) => expressions
  }

  function Flatten(rows: seq<seq<Expr>>): seq<Expr> {
    if rows == [] then [] else rows[0] + Flatten(rows[1..])
  }

  // ---------------------------------------------------------------- statement analysis

  /** The derived queries: both come from the statement's own table and WHERE clause. */
  datatype CountQuery = CountQuery(from: TableRef, selection: Expr)

  datatype TargetQuery = TargetQuery(rowReference: Ident, from: TableRef, selection: Expr)

  datatype Details = Details(
    kind: StatementKind,
    table: seq<Ident>,
    count: Option<CountQuery>,
    targetRows: Option<TargetQuery>,
    insertedRows: nat)

  function PolicyFailure<T>(code: string): Result<T> {
    Err(AppError(Policy, code))
  }

  function AnalyzeInsert(s: Statement): Result<Details>
    requires s.InsertStatement?
  {
    if s.extras then PolicyFailure("insert_form_denied")
    else if s.target.None? then PolicyFailure("insert_target_denied")
    else if !(1 <= |s.target.value| <= 2) then PolicyFailure("table_name_denied")
    else if s.source.NoSource? then PolicyFailure("insert_values_required")
    else if s.source.modifiers then PolicyFailure("insert_query_denied")
    else if s.source.SelectSource? then PolicyFailure("insert_select_denied")
    else if s.source.oddForm || s.source.rows == [] then PolicyFailure("insert_values_form_denied")
    else
      var rows := s.source.rows;
      var width := |rows[0]|;
      if width == 0 || exists i | 0 <= i < |rows| :: |rows[i]| != width then
        PolicyFailure("insert_values_width_mismatch")
      else if s.columns != [] && |s.columns| != width then PolicyFailure("insert_column_count_mismatch")
      else Ok(Details(StatementKind.Insert, s.target.value, None, None, |rows|))
  }

  /** The table's name and the name its rows go by (src/sql.rs:347-397). */
  function ValidateTable(t: TableRef): Result<(seq<Ident>, Ident)> {
    if t.joins then PolicyFailure("join_denied")
    else if t.extras then PolicyFailure("table_factor_denied")
    else if !(1 <= |t.name| <= 2) then PolicyFailure("table_name_denied")
    else Ok((t.name, if t.alias.Some? then t.alias.value else t.name[|t.name| - 1]))
  }

  /** The name that a FROM item exposes: its alias, which then hides the name of the table. */
  predicate Exposes(t: TableRef, name: Ident) {
    if t.alias.Some? then name == t.alias.value else t.name != [] && name == t.name[|t.name| - 1]
  }

  /** A query can name its rows only by what its FROM item exposes. */
  predicate InScope(q: TargetQuery) {
    Exposes(q.from, q.rowReference)
  }

  function Derive(kind: StatementKind, t: TableRef, selection: Expr): Result<Details> {
    var (name, reference) :- ValidateTable(t);
    Ok(Details(kind, name, Some(CountQuery(t, selection)), Some(TargetQuery(reference, t, selection)), 0))
  }

  function AnalyzeUpdate(s: Statement): Result<Details>
    requires s.UpdateStatement?
  {
    if s.extras || s.assignments == [] then PolicyFailure("update_form_denied")
    else if s.selection.None? then PolicyFailure("where_required")
    else Derive(Update, s.table, s.selection.value)
  }

  function AnalyzeDelete(s: Statement): Result<Details>
    requires s.DeleteStatement?
  {
    if s.extras then PolicyFailure("delete_form_denied")
    else if s.selection.None? then PolicyFailure("where_required")
    else if !s.withFrom then PolicyFailure("delete_from_required")
    else if |s.tables| != 1 then PolicyFailure("single_table_required")
    else Derive(Delete, s.tables[0], s.selection.value)
  }

  function AnalyzeStatement(s: Statement): Result<Details> {
    if FirstUnsafeOf(StatementExpressions(s)).Some? then PolicyFailure("dynamic_expression_denied")
    else match s
      case InsertStatement(_, _, _, _) => AnalyzeInsert(s)
      case UpdateStatement(_, _, _, _) => AnalyzeUpdate(s)
      case DeleteStatement(_, _, _, _) => AnalyzeDelete(s)
      case OtherStatement(_) => PolicyFailure("statement_kind_denied")
  }

  // ---------------------------------------------------------------- what is accepted

  /** One table, by an unqualified or schema-qualified name, without joins or decorations. */
  predicate PlainTable(t: TableRef) {
    !t.joins && !t.extras && 1 <= |t.name| <= 2
  }

  predicate Rectangular(rows: seq<seq<Expr>>, width: nat) {
    rows != [] && forall i | 0 <= i < |rows| :: |rows[i]| == width
  }

  /** Function calls, subqueries, placeholders and the keyword DEFAULT, written in any case. */
  predicate Forbidden(e: Expr) {
    || e.Function? || e.Subquery? || e.Exists? || e.InSubquery? || e.Placeholder?
    || (e.Identifier? && !e.id.quoted && |e.id.value| == 7
        && forall i | 0 <= i < 7 :: e.id.value[i] == "default"[i] || e.id.value[i] == "DEFAULT"[i])
  }

  lemma ForbiddenExactly(e: Expr)
    ensures UnsafeNode(e).Some? <==> Forbidden(e)
  {
    if e.Identifier? && !e.id.quoted && |e.id.value| == 7 {
      var v := e.id.value;
      assert Lower(v) == "default" <==> forall i | 0 <= i < 7 :: Lower(v)[i] == "default"[i];
    }
  }

  /** No node of the expression is forbidden, at any depth. */
  predicate Clean(e: Expr) {
    forall n | n in Nodes(e) :: !Forbidden(n)
  }

  predicate CleanList(es: seq<Expr>) {
    forall i | 0 <= i < |es| :: Clean(es[i])
  }

  predicate CleanCells(rows: seq<seq<Expr>>) {
    forall i, j | 0 <= i < |rows| && 0 <= j < |rows[i]| :: Clean(rows[i][j])
  }

  /** No expression anywhere in the statement has a forbidden node. */
  predicate AllClean(s: Statement) {
    match s
    case InsertStatement(_, _, source, _) =>
      source.ValuesSource? ==> CleanCells(source.rows)
    case UpdateStatement(_, assignments, selection, _) =>
      && (forall i | 0 <= i < |assignments| :: Clean(assignments[i].value))
      && (selection.Some? ==> Clean(selection.value))
    case DeleteStatement(_, _, selection, _) => selection.Some? ==> Clean(selection.value)
    case OtherStatement(expressions) => CleanList(expressions)
  }

  lemma {:induction false} CleanExpressions(es: seq<Expr>)
    ensures (forall n | n in NodesOf(es) :: !Forbidden(n)) <==> CleanList(es)
  {
    hide Forbidden, Nodes;
    if es != [] {
      CleanExpressions(es[1..]);
      assert es == [es[0]] + es[1..];
      if forall n | n in NodesOf(es) :: !Forbidden(n) {
        assert forall n | n in Nodes(es[0]) :: n in NodesOf(es);
        assert forall n | n in NodesOf(es[1..]) :: n in NodesOf(es);
      }
    }
  }

  lemma {:induction false} CleanRows(rows: seq<seq<Expr>>)
    ensures CleanList(Flatten(rows)) <==> CleanCells(rows)
  {
    hide Clean;
    if rows != [] {
      CleanRows(rows[1..]);
      assert rows == [rows[0]] + rows[1..];
      if CleanList(Flatten(rows)) {
        forall j | 0 <= j < |rows[0]| ensures Clean(rows[0][j]) {
          assert Flatten(rows)[j] == rows[0][j];
        }
        forall k | 0 <= k < |Flatten(rows[1..])| ensures Clean(Flatten(rows[1..])[k]) {
          assert Flatten(rows)[|rows[0]| + k] == Flatten(rows[1..])[k];
        }
      }
      if CleanCells(rows) {
        forall i, j | 0 <= i < |rows[1..]| && 0 <= j < |rows[1..][i]| ensures Clean(rows[1..][i][j]) {
          assert rows[1..][i] == rows[i + 1];
        }
      }
    }
  }

  /** The visitor lets a statement through exactly when it is clean. */
  lemma VisitedExactly(s: Statement)
    ensures FirstUnsafeOf(StatementExpressions(s)).None? <==> AllClean(s)
  {
    var es := StatementExpressions(s);
    NoneForbidden(es);
    CleanExpressions(es);
    hide FirstUnsafeOf, NodesOf, Forbidden, Clean, CleanCells, Flatten;
    match s
    case InsertStatement(_, _, source, _) => if source.ValuesSource? { CleanRows(source.rows); }
    case UpdateStatement(_, assignments, selection, _) =>
      assert forall i | 0 <= i < |assignments| :: es[i] == assignments[i].value;
      assert selection.Some? ==> es[|es| - 1] == selection.value && |es| == |assignments| + 1;
      assert forall i | 0 <= i < |es| :: i < |assignments| || es[i] == selection.value;
    case DeleteStatement(_, _, selection, _) => assert selection.Some? ==> es[0] == selection.value;
    case OtherStatement(_) =>
  }

  /** The statements inside the safety boundary, without reference to the order of the checks. */
  predicate Acceptable(s: Statement) {
    && AllClean(s)
    && match s
       case InsertStatement(target, columns, source, extras) =>
         && !extras && target.Some? && 1 <= |target.value| <= 2
         && source.ValuesSource? && !source.modifiers && !source.oddForm
         && source.rows != [] && source.rows[0] != [] && Rectangular(source.rows, |source.rows[0]|)
         && (columns == [] || |columns| == |source.rows[0]|)
       case UpdateStatement(table, assignments, selection, extras) =>
         !extras && assignments != [] && selection.Some? && PlainTable(table)
       case DeleteStatement(tables, withFrom, selection, extras) =>
         !extras && withFrom && |tables| == 1 && selection.Some? && PlainTable(tables[0])
       case OtherStatement(_) => false
  }

  /** The analysis accepts exactly the statements inside the boundary. */
  lemma AcceptsExactly(s: Statement)
    ensures AnalyzeStatement(s).Ok? <==> Acceptable(s)
  {
    VisitedExactly(s);
    hide FirstUnsafeOf, StatementExpressions, AllClean;
  }

  lemma NoneForbidden(es: seq<Expr>)
    ensures FirstUnsafeOf(es).None? <==> forall n | n in NodesOf(es) :: !Forbidden(n)
  {
    VisitorIsExactOnAll(es);
    hide FirstUnsafeOf, UnsafeNode, NodesOf, Forbidden;
    forall n | n in NodesOf(es) ensures UnsafeNode(n).None? <==> !Forbidden(n) {
      ForbiddenExactly(n);
    }
  }

  // ---------------------------------------------------------------- what is refused, and why

  function TableFindings(t: TableRef): seq<Option<AppError>> {
    [ If(t.joins, Policy, "join_denied"),
      If(t.extras, Policy, "table_factor_denied"),
      If(|t.name| != 1 && |t.name| != 2, Policy, "table_name_denied")]
  }

  function InsertFindings(target: Option<seq<Ident>>, columns: seq<Ident>, source: InsertSource, extras: bool)
    : seq<Option<AppError>>
  {
    var rows := if source.ValuesSource? then source.rows else [];
    [ If(extras, Policy, "insert_form_denied"),
      If(target.None?, Policy, "insert_target_denied"),
      If(target.Some? && |target.value| != 1 && |target.value| != 2, Policy, "table_name_denied"),
      If(source.NoSource?, Policy, "insert_values_required"),
      If(!source.NoSource? && source.modifiers, Policy, "insert_query_denied"),
      If(source.SelectSource?, Policy, "insert_select_denied"),
      If(source.ValuesSource? && (source.oddForm || rows == []), Policy, "insert_values_form_denied"),
      If(rows != [] && (rows[0] == [] || !Rectangular(rows, |rows[0]|)), Policy,
         "insert_values_width_mismatch"),
      If(rows != [] && columns != [] && |columns| != |rows[0]|, Policy, "insert_column_count_mismatch")]
  }

  /** The checks of a statement in their order. */
  function StatementFindings(s: Statement): seq<Option<AppError>> {
    [If(!AllClean(s), Policy, "dynamic_expression_denied")]
    + match s
      case InsertStatement(target, columns, source, extras) => InsertFindings(target, columns, source, extras)
      case UpdateStatement(table, assignments, selection, extras) =>
        [ If(extras || assignments == [], Policy, "update_form_denied"),
          If(selection.None?, Policy, "where_required")] + TableFindings(table)
      case DeleteStatement(tables, withFrom, selection, extras) =>
        [ If(extras, Policy, "delete_form_denied"),
          If(selection.None?, Policy, "where_required"),
          If(!withFrom, Policy, "delete_from_required"),
          If(|tables| != 1, Policy, "single_table_required")] + (if |tables| == 1 then TableFindings(tables[0]) else [])
      case OtherStatement(_) => [Some(AppError(Policy, "statement_kind_denied"))]
  }

  /** The checks of a file in their order. */
  function FileFindings(g: Grammar, blank: string -> bool, raw: string): seq<Option<AppError>> {
    var parsed := g.parse(raw);
    [ If(|raw| > 1_048_576, Usage, "sql_file_too_large"),
      If(blank(raw), Policy, "empty_sql"),
      If(parsed.None?, Policy, "sql_parse_failed"),
      If(parsed.Some? && |parsed.value| != 1, Policy, "statement_count_not_one")]
    + if parsed.Some? && |parsed.value| == 1 then StatementFindings(parsed.value[0]) else []
  }

  lemma TableReport(t: TableRef)
    ensures Report(TableFindings(t), 0) == ErrorOf(ValidateTable(t))
  {
    var f := TableFindings(t);
    var _ := [Report(f, 1), Report(f, 2), Report(f, 3)];
  }

  lemma InsertReport(s: Statement)
    requires s.InsertStatement?
    ensures Report(InsertFindings(s.target, s.columns, s.source, s.extras), 0) == ErrorOf(AnalyzeInsert(s))
  {
    var f := InsertFindings(s.target, s.columns, s.source, s.extras);
    var _ := [Report(f, 1), Report(f, 2), Report(f, 3), Report(f, 4), Report(f, 5), Report(f, 6), Report(f, 7), Report(f, 8),
              Report(f, 9)];
  }

  lemma StatementReport(s: Statement)
    ensures Report(StatementFindings(s), 0) == ErrorOf(AnalyzeStatement(s))
  {
    VisitedExactly(s);
    hide FirstUnsafeOf, StatementExpressions, AllClean, InsertFindings, TableFindings, ValidateTable, AnalyzeInsert;
    var f := StatementFindings(s);
    ReportAppend([f[0]], f[1..]);
    assert [f[0]] + f[1..] == f;
    var _ := [Report(f[1..], 1), Report(f[1..], 2), Report(f[1..], 3), Report(f[1..], 4), Report([f[0]], 1)];
    match s
    case InsertStatement(_, _, _, _) => InsertReport(s);
    case UpdateStatement(table, _, _, _) =>
      TableReport(table);
      ReportAppend(f[1..3], TableFindings(table));
      var _ := [Report(f[1..3], 1), Report(f[1..3], 2)];
      assert f[1..] == f[1..3] + TableFindings(table);
    case DeleteStatement(tables, _, _, _) =>
      if |tables| == 1 {
        TableReport(tables[0]);
        ReportAppend(f[1..5], TableFindings(tables[0]));
        var _ := [Report(f[1..5], 1), Report(f[1..5], 2), Report(f[1..5], 3), Report(f[1..5], 4)];
        assert f[1..] == f[1..5] + TableFindings(tables[0]);
      }
    case OtherStatement(_) =>
  }

  lemma AnalysisReport(hash: Hasher, g: Grammar, blank: string -> bool, raw: string)
    ensures Report(FileFindings(g, blank, raw), 0) == ErrorOf(AnalyzeSql(hash, g, blank, raw))
  {
    hide StatementFindings, AnalyzeStatement, Sha256;
    var f := FileFindings(g, blank, raw);
    var _ := [Report(f, 1), Report(f, 2), Report(f, 3), Report(f, 4)];
    var parsed := g.parse(raw);
    if parsed.Some? && |parsed.value| == 1 {
      StatementReport(parsed.value[0]);
      ReportAppend(f[..4], StatementFindings(parsed.value[0]));
      var _ := [Report(f[..4], 1), Report(f[..4], 2), Report(f[..4], 3), Report(f[..4], 4)];
      assert f == f[..4] + StatementFindings(parsed.value[0]);
    }
  }

  /** A file that is not accepted is refused for the first of these reasons. */
  lemma AnalysisErrorExactly(hash: Hasher, g: Grammar, blank: string -> bool, raw: string, error: AppError)
    ensures AnalyzeSql(hash, g, blank, raw) == Err(error) <==> Reports(FileFindings(g, blank, raw), error)
  {
    hide FileFindings, AnalyzeSql, Reports;
    AnalysisReport(hash, g, blank, raw);
    ReportIs(FileFindings(g, blank, raw), error);
  }

  // ---------------------------------------------------------------- analysis of a file

  /** The SQL library: its parser, and how it prints what it parsed. */
  datatype Grammar = Grammar(
    parse: string -> Option<seq<Statement>>,
    printStatement: Statement -> string,
    printTable: TableRef -> string,
    printName: seq<Ident> -> string,
    printIdent: Ident -> string,
    printExpr: Expr -> string)

  datatype AnalyzedSql = AnalyzedSql(
    statement: Statement,
    details: Details,
    normalized: string,
    requestedTable: string,
    sqlFileSha256: string,
    normalizedSqlSha256: string,
    countQuerySha256: Option<string>,
    targetQuerySha256: Option<string>)

  const MAX_SQL_BYTES := 1_048_576

  function CountText(g: Grammar, q: CountQuery): string {
    "SELECT COUNT(*)::bigint FROM " + g.printTable(q.from) + " WHERE " + g.printExpr(q.selection)
  }

  function TargetText(g: Grammar, q: TargetQuery): string {
    var row := "pg_catalog.to_jsonb(" + g.printIdent(q.rowReference) + ")::text";
    "SELECT " + row + " FROM " + g.printTable(q.from) + " WHERE " + g.printExpr(q.selection) + " ORDER BY " + row
  }

  function AnalyzeSql(hash: Hasher, g: Grammar, blank: string -> bool, raw: string): Result<AnalyzedSql> {
    if |raw| > MAX_SQL_BYTES then Err(AppError(Usage, "sql_file_too_large"))
    else if blank(raw) then PolicyFailure("empty_sql")
    else if g.parse(raw).None? then PolicyFailure("sql_parse_failed")
    else if |g.parse(raw).value| != 1 then PolicyFailure("statement_count_not_one")
    else
      var statement := g.parse(raw).value[0];
      var details :- AnalyzeStatement(statement);
      var normalized := g.printStatement(statement);
      Ok(AnalyzedSql(
        statement, details, normalized, g.printName(details.table),
        Sha256(hash, raw),
        Sha256(hash, normalized),
        if details.count.Some? then Some(Sha256(hash, CountText(g, details.count.value))) else None,
        if details.targetRows.Some? then Some(Sha256(hash, TargetText(g, details.targetRows.value))) else None))
  }

  /** The texts that the derived queries of a table and a WHERE clause have, as digests. */
  predicate QueriesRecorded(hash: Hasher, g: Grammar, a: AnalyzedSql, t: TableRef, e: Expr) {
    && t.name != [] && a.details.table == t.name && a.requestedTable == g.printName(t.name)
    && var rows := "pg_catalog.to_jsonb(" + g.printIdent(if t.alias.Some? then t.alias.value else t.name[|t.name| - 1]) + ")::text";
       var from, where := g.printTable(t), g.printExpr(e);
       && a.countQuerySha256 == Some(Sha256(hash, "SELECT COUNT(*)::bigint FROM " + from + " WHERE " + where))
       && a.targetQuerySha256
          == Some(Sha256(hash, "SELECT " + rows + " FROM " + from + " WHERE " + where + " ORDER BY " + rows))
  }

  /**
   What the analysis of an accepted file records: the digests of the file and of the normalized statement; for
   an UPDATE or DELETE those of its two queries, which go over the statement's own table and WHERE clause; for
   an INSERT the number of its rows.
   */
  lemma AnalysisRecords(hash: Hasher, g: Grammar, blank: string -> bool, raw: string)
    requires AnalyzeSql(hash, g, blank, raw).Ok?
    ensures var a := AnalyzeSql(hash, g, blank, raw).value;
      && g.parse(raw) == Some([a.statement]) && a.sqlFileSha256 == Sha256(hash, raw)
      && a.normalized == g.printStatement(a.statement) && a.normalizedSqlSha256 == Sha256(hash, a.normalized)
      && match a.statement
         case UpdateStatement(t, _, e, _) =>
           a.details.kind == Update && e.Some? && QueriesRecorded(hash, g, a, t, e.value)
         case DeleteStatement(ts, _, e, _) =>
           a.details.kind == Delete && e.Some? && |ts| == 1 && QueriesRecorded(hash, g, a, ts[0], e.value)
         case InsertStatement(target, _, source, _) =>
           && a.details.kind == StatementKind.Insert && target.Some? && source.ValuesSource?
           && a.details.table == target.value && a.requestedTable == g.printName(target.value)
           && a.countQuerySha256.None? && a.targetQuerySha256.None? && a.details.insertedRows == |source.rows|
         case OtherStatement(_) => false
  {
    var s := g.parse(raw).value[0];
    assert g.parse(raw).value == [s];
    hide FirstUnsafeOf, Sha256, QueriesRecorded;
    if s.UpdateStatement? {
      DerivedRecords(hash, g, blank, raw, Update, s.table, s.selection.value);
    } else if s.DeleteStatement? {
      DerivedRecords(hash, g, blank, raw, Delete, s.tables[0], s.selection.value);
    }
  }

  lemma DerivedRecords(hash: Hasher, g: Grammar, blank: string -> bool, raw: string, kind: StatementKind, t: TableRef, e: Expr)
    requires AnalyzeSql(hash, g, blank, raw).Ok?
    requires Derive(kind, t, e) == Ok(AnalyzeSql(hash, g, blank, raw).value.details)
    ensures QueriesRecorded(hash, g, AnalyzeSql(hash, g, blank, raw).value, t, e)
  {
    hide FirstUnsafeOf, Sha256, AnalyzeStatement;
  }
}

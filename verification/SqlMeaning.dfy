/** The meaning of accepted statements: SQL's three-valued logic, row by row, with errors. */
module SqlMeaning {
  import opened Multisets
  import opened Wrappers
  import opened Model
  import opened Sql

  /** A row by its columns. */
  type Row = map<string, Value>

  datatype Outcome = Val(v: Value) | Fail

  /**
   Everything an expression could depend on besides its row: other tables, parameters, functions, column
   defaults, and the casts and operators of the server.
   */
  datatype Env = Env(
    tables: string -> seq<Row>,
    parameters: string -> Value,
    functions: (string, seq<Value>) -> Outcome,
    columnDefault: Value,
    casts: (string, Value) -> Outcome,
    operators: (string, Value, Value) -> Outcome)

  function Column(row: Row, name: string): Outcome {
    if name in row then Val(row[name]) else Fail
  }

  function Truth(b: bool): Outcome {
    Val(VBool(b))
  }

  function Negate(o: Outcome): Outcome {
    match o
    case Val(VBool(b)) => Truth(!b)
    case Val(VNull) => Val(VNull)
    case _ => Fail
  }

  function NegateIf(negated: bool, o: Outcome): Outcome {
    if negated then Negate(o) else o
  }

  /** Kleene's conjunction; a false operand decides. */
  function Conjoin(a: Outcome, b: Outcome): Outcome {
    if a == Truth(false) then a
    else if a == Truth(true) then (if b.Val? && (b.v.VBool? || b.v.VNull?) then b else Fail)
    else if a == Val(VNull) then
      (if b == Truth(false) then b else if b.Val? && (b.v.VBool? || b.v.VNull?) then a else Fail)
    else Fail
  }

  function Disjoin(a: Outcome, b: Outcome): Outcome {
    Negate(Conjoin(Negate(a), Negate(b)))
  }

  function ApplyOp(op: BinaryOp, a: Outcome, b: Outcome, env: Env): Outcome {
    match op
    case And => Conjoin(a, b)
    case Or => Disjoin(a, b)
    case _ =>
      if a.Fail? || b.Fail? then Fail
      else if op.Operator? then env.operators(op.symbol, a.v, b.v)
      else if a.v.VNull? || b.v.VNull? then Val(VNull)
      else if op.Eq? then
        (if a.v.VBool? == b.v.VBool? && a.v.VInt? == b.v.VInt? then Truth(a.v == b.v) else Fail)
      else if !a.v.VInt? || !b.v.VInt? then Fail
      else if op.Lt? then Truth(a.v.n < b.v.n)
      else if op.Plus? then Val(VInt(a.v.n + b.v.n))
      else if b.v.n == 0 then Fail
      else Val(VInt(Quotient(a.v.n, b.v.n)))
  }

  /** Division truncates toward zero. */
  function Quotient(a: int, b: int): int
    requires b != 0
  {
    if a >= 0 then a / b else -(-a / b)
  }

  function Eval(e: Expr, row: Row, env: Env): Outcome
    decreases e, 2
  {
    match e
    case Identifier(id) =>
      if !id.quoted && Lower(id.value) == "default" then Val(env.columnDefault) else Column(row, NameOf(id))
    case Compound(_, column) => Column(row, NameOf(column))
    case Literal(v) => Val(v)
    case Placeholder(name) => Val(env.parameters(name))
    case Nested(a) => Eval(a, row, env)
    case Not(a) => Negate(Eval(a, row, env))
    case IsNull(a, negated) =>
      (match Eval(a, row, env)
       case Val(v) => Truth(v.VNull? != negated)
       case Fail => Fail)
    case Binary(op, l, r) => ApplyOp(op, Eval(l, row, env), Eval(r, row, env), env)
    case Between(a, lo, hi, negated) =>
      var x := Eval(a, row, env);
      NegateIf(negated, Conjoin(Negate(ApplyOp(Lt, x, Eval(lo, row, env), env)),
                                Negate(ApplyOp(Lt, Eval(hi, row, env), x, env))))
    case InList(a, items, negated) => NegateIf(negated, AnyEqual(Eval(a, row, env), EvalAll(items, row, env), env))
    case Case(conditions, results, otherwise) =>
      FirstTrue(EvalAll(conditions, row, env), EvalAll(results, row, env), Eval(otherwise, row, env))
    case Cast(a, typeName) =>
      (match Eval(a, row, env)
       case Val(v) => env.casts(typeName, v)
       case Fail => Fail)
    case Function(name, args) =>
      var vs := EvalAll(args, row, env);
      if exists i | 0 <= i < |vs| :: vs[i].Fail? then Fail
      else env.functions(name, seq(|vs|, i requires 0 <= i < |vs| && vs[i].Val? => vs[i].v))
    case Subquery(q) =>
      var vs := EvalQuery(q, env.tables(q.table), row, env);
      if vs == [] then Val(VNull) else if |vs| == 1 then vs[0] else Fail
    case Exists(q, negated) => Truth((EvalQuery(q, env.tables(q.table), row, env) != []) != negated)
    case InSubquery(a, q, negated) =>
      NegateIf(negated, AnyEqual(Eval(a, row, env), EvalQuery(q, env.tables(q.table), row, env), env))
  }

  function EvalAll(es: seq<Expr>, row: Row, env: Env): (r: seq<Outcome>)
    ensures |r| == |es|
    decreases es, 1
  {
    if es == [] then [] else [Eval(es[0], row, env)] + EvalAll(es[1..], row, env)
  }

  /** A correlated query: the inner row hides columns of the outer one. */
  function EvalQuery(q: Query, inner: seq<Row>, outer: Row, env: Env): seq<Outcome>
    decreases q, 3, inner
  {
    if inner == [] then []
    else
      var row := outer + inner[0];
      (if Eval(q.filter, row, env) == Truth(true) then [Eval(q.projection, row, env)] else [])
      + EvalQuery(q, inner[1..], outer, env)
  }

  function AnyEqual(x: Outcome, vs: seq<Outcome>, env: Env): Outcome {
    if vs == [] then Truth(false) else Disjoin(ApplyOp(Eq, x, vs[0], env), AnyEqual(x, vs[1..], env))
  }

  function FirstTrue(conditions: seq<Outcome>, results: seq<Outcome>, otherwise: Outcome): Outcome {
    if conditions == [] || results == [] then otherwise
    else if conditions[0] == Truth(true) then results[0]
    else if conditions[0].Fail? then Fail
    else FirstTrue(conditions[1..], results[1..], otherwise)
  }

  // ---------------------------------------------------------------- three-valued logic

  /** The truth values in order: false, unknown, true. */
  function Degree(n: int): Outcome {
    if n == 0 then Val(VBool(false)) else if n == 1 then Val(VNull) else Val(VBool(true))
  }

  /** Conjunction is the minimum, disjunction the maximum, and negation turns the order around. */
  lemma KleeneExactly(a: int, b: int)
    requires 0 <= a <= 2 && 0 <= b <= 2
    ensures Conjoin(Degree(a), Degree(b)) == Degree(if a < b then a else b)
    ensures Disjoin(Degree(a), Degree(b)) == Degree(if a < b then b else a)
    ensures Negate(Degree(a)) == Degree(2 - a)
  {
  }

  /** On numbers, BETWEEN is a range; a null operand leaves it open unless the other bound decides. */
  lemma BetweenIsARange(x: int, lo: int, hi: int, negated: bool, row: Row, env: Env)
    ensures Eval(Between(Literal(VInt(x)), Literal(VInt(lo)), Literal(VInt(hi)), negated), row, env)
         == Val(VBool((lo <= x <= hi) != negated))
    ensures Eval(Between(Literal(VInt(x)), Literal(VNull), Literal(VInt(hi)), negated), row, env)
         == if x <= hi then Val(VNull) else Val(VBool(negated))
  {
    var e, f, g, n := Literal(VInt(x)), Literal(VInt(lo)), Literal(VInt(hi)), Literal(VNull);
    assert Eval(e, row, env) == Val(VInt(x)) && Eval(f, row, env) == Val(VInt(lo));
    assert Eval(g, row, env) == Val(VInt(hi)) && Eval(n, row, env) == Val(VNull);
  }

  /** On numbers, IN is membership, and a null among the items makes a miss unknown. */
  lemma {:induction false} InIsMembership(x: int, items: seq<Option<int>>, env: Env)
    ensures AnyEqual(Val(VInt(x)), ItemValues(items), env)
         == if Some(x) in items then Val(VBool(true))
            else if None in items then Val(VNull)
            else Val(VBool(false))
  {
    if items != [] {
      InIsMembership(x, items[1..], env);
      assert items == [items[0]] + items[1..];
      assert ItemValues(items)[1..] == ItemValues(items[1..]);
    }
  }

  function ItemValues(items: seq<Option<int>>): seq<Outcome> {
    seq(|items|, i requires 0 <= i < |items| => Val(if items[i].Some? then VInt(items[i].value) else VNull))
  }

  /** Division truncates: no larger than the operand, and off by less than the divisor. */
  lemma QuotientTruncates(a: int, b: int)
    requires b != 0
    ensures var q := Quotient(a, b); var rest := a - q * b;
      (rest == 0 || (rest > 0 <==> a > 0)) && -(if b < 0 then -b else b) < rest < (if b < 0 then -b else b)
  {
  }

  /** A WHERE clause keeps a row exactly when it is true on it; comparing with null never is. */
  lemma KeptExactly(selection: Expr, row: Row, env: Env, e: Expr)
    ensures Test(selection, row, env) == Yes <==> Eval(selection, row, env) == Val(VBool(true))
    ensures Test(Binary(BinaryOp.Eq, e, Literal(VNull)), row, env) != Yes
    ensures Test(Binary(BinaryOp.Lt, e, Literal(VNull)), row, env) != Yes
  {
    assert Eval(Literal(VNull), row, env) == Val(VNull);
  }

  // ---------------------------------------------------------------- environment independence

  /** The trusted part of the server: casts and operators are functions of their operands. */
  ghost predicate SameServer(a: Env, b: Env) {
    && (forall t, v :: a.casts(t, v) == b.casts(t, v))
    && (forall o, x, y :: a.operators(o, x, y) == b.operators(o, x, y))
  }

  lemma {:induction false} AnyEqualSame(x: Outcome, vs: seq<Outcome>, a: Env, b: Env)
    requires SameServer(a, b)
    ensures AnyEqual(x, vs, a) == AnyEqual(x, vs, b)
  {
    if vs != [] {
      AnyEqualSame(x, vs[1..], a, b);
    }
  }

  /**
   An expression that the visitor lets through denotes a function of the row: whatever other tables,
   parameters, functions and defaults there are, it evaluates alike.
   */
  lemma {:induction false} EnvironmentIndependence(e: Expr, row: Row, a: Env, b: Env)
    requires FirstUnsafe(e).None? && SameServer(a, b)
    ensures Eval(e, row, a) == Eval(e, row, b)
    decreases e, 1
  {
    match e
    case Nested(x) => EnvironmentIndependence(x, row, a, b);
    case Not(x) => EnvironmentIndependence(x, row, a, b);
    case IsNull(x, _) => EnvironmentIndependence(x, row, a, b);
    case Binary(_, l, r) =>
      EnvironmentIndependence(l, row, a, b);
      EnvironmentIndependence(r, row, a, b);
    case Between(x, lo, hi, _) =>
      EnvironmentIndependence(x, row, a, b);
      EnvironmentIndependence(lo, row, a, b);
      EnvironmentIndependence(hi, row, a, b);
    case InList(x, items, _) =>
      EnvironmentIndependence(x, row, a, b);
      ListIndependence(items, row, a, b);
      AnyEqualSame(Eval(x, row, a), EvalAll(items, row, a), a, b);
    case Case(conditions, results, otherwise) =>
      ListIndependence(conditions, row, a, b);
      ListIndependence(results, row, a, b);
      EnvironmentIndependence(otherwise, row, a, b);
    case Cast(x, _) => EnvironmentIndependence(x, row, a, b);
    case _ =>
  }

  lemma {:induction false} ListIndependence(es: seq<Expr>, row: Row, a: Env, b: Env)
    requires FirstUnsafeOf(es).None? && SameServer(a, b)
    ensures EvalAll(es, row, a) == EvalAll(es, row, b)
    decreases es, 0
  {
    if es != [] {
      EnvironmentIndependence(es[0], row, a, b);
      ListIndependence(es[1..], row, a, b);
    }
  }

  /**
   The hypothesis on casts is needed: an accepted cast tells two environments apart as soon as their casts
   differ on the value, which is the case of `CAST('now' AS timestamptz)` at two moments.
   */
  lemma CastsAreTrusted(typeName: string, v: Value, row: Row, a: Env, b: Env)
    ensures FirstUnsafe(Cast(Literal(v), typeName)).None?
    ensures Eval(Cast(Literal(v), typeName), row, a) == Eval(Cast(Literal(v), typeName), row, b)
       <==> a.casts(typeName, v) == b.casts(typeName, v)
  {
    assert FirstUnsafe(Literal(v)).None?;
  }

  // ---------------------------------------------------------------- statements and derived queries

  /** The WHERE clause on a row: null counts as false, and anything but a truth value is an error. */
  datatype Verdict = Yes | No | Bad

  function Test(selection: Expr, row: Row, env: Env): Verdict {
    match Eval(selection, row, env)
    case Val(VBool(b)) => if b then Yes else No
    case Val(VNull) => No
    case _ => Bad
  }

  /** The rows on which the WHERE clause is true, in scan order; no result if it fails on a row. */
  function Selected(rows: seq<Row>, selection: Expr, env: Env): Option<seq<Row>> {
    if rows == [] then Some([])
    else
      var rest :- Selected(rows[1..], selection, env);
      match Test(selection, rows[0], env)
      case Yes => Some([rows[0]] + rest)
      case No => Some(rest)
      case Bad => None
  }

  function CountRows(rows: seq<Row>, q: CountQuery, env: Env): Option<nat> {
    if rows == [] then Some(0)
    else
      var rest :- CountRows(rows[1..], q, env);
      match Test(q.selection, rows[0], env)
      case Yes => Some(rest + 1)
      case No => Some(rest)
      case Bad => None
  }

  /** The row after the assignments, each computed from the row as it was. */
  function Assigned(row: Row, assignments: seq<Assignment>, env: Env): Option<Row> {
    if assignments == [] then Some(row)
    else
      var last := assignments[|assignments| - 1];
      var before :- Assigned(row, assignments[..|assignments| - 1], env);
      match Eval(last.value, row, env)
      case Val(v) => Some(before[NameOf(last.column) := v])
      case Fail => None
  }

  /** What became of a table: its rows and the number that PostgreSQL reports as affected. */
  datatype Executed = Executed(after: seq<Row>, affected: nat)

  function ExecuteUpdate(rows: seq<Row>, assignments: seq<Assignment>, selection: Expr, env: Env): Option<Executed> {
    if rows == [] then Some(Executed([], 0))
    else
      var rest :- ExecuteUpdate(rows[1..], assignments, selection, env);
      match Test(selection, rows[0], env)
      case Yes =>
        var row :- Assigned(rows[0], assignments, env);
        Some(Executed([row] + rest.after, rest.affected + 1))
      case No => Some(Executed([rows[0]] + rest.after, rest.affected))
      case Bad => None
  }

  function ExecuteDelete(rows: seq<Row>, selection: Expr, env: Env): Option<Executed> {
    if rows == [] then Some(Executed([], 0))
    else
      var rest :- ExecuteDelete(rows[1..], selection, env);
      match Test(selection, rows[0], env)
      case Yes => Some(Executed(rest.after, rest.affected + 1))
      case No => Some(Executed([rows[0]] + rest.after, rest.affected))
      case Bad => None
  }

  /** The rows an UPDATE writes for the rows it selects. */
  function AssignedAll(rows: seq<Row>, assignments: seq<Assignment>, env: Env): Option<seq<Row>> {
    if rows == [] then Some([])
    else
      var rest :- AssignedAll(rows[1..], assignments, env);
      var row :- Assigned(rows[0], assignments, env);
      Some([row] + rest)
  }

  // ---------------------------------------------------------------- the queries agree with the statement

  /** On any rows, the count query counts exactly the selected rows, and fails exactly when they do. */
  lemma {:induction false} CountAgrees(rows: seq<Row>, q: CountQuery, env: Env)
    ensures CountRows(rows, q, env).Some? <==> Selected(rows, q.selection, env).Some?
    ensures CountRows(rows, q, env).Some? ==> CountRows(rows, q, env).value == |Selected(rows, q.selection, env).value|
  {
    if rows != [] {
      CountAgrees(rows[1..], q, env);
    }
  }

  lemma HeadAndTail(rows: seq<Row>)
    requires rows != []
    ensures multiset(rows) == multiset{rows[0]} + multiset(rows[1..])
  {
    assert rows == [rows[0]] + rows[1..];
  }

  /** Exchanging `picked` for `images` in `rows`. */
  ghost predicate Exchanged(rows: seq<Row>, picked: seq<Row>, images: seq<Row>, after: seq<Row>) {
    && multiset(picked) <= multiset(rows)
    && multiset(after) == multiset(rows) - multiset(picked) + multiset(images)
  }

  lemma ExchangeHead(rows: seq<Row>, picked: seq<Row>, images: seq<Row>, after: seq<Row>, image: Row)
    requires rows != [] && Exchanged(rows[1..], picked, images, after)
    ensures Exchanged(rows, [rows[0]] + picked, [image] + images, [image] + after)
    ensures Exchanged(rows, [rows[0]] + picked, images, after)
    ensures Exchanged(rows, picked, images, [rows[0]] + after)
  {
    HeadAndTail(rows);
    Push(rows[0], picked);
    Push(image, images);
    Push(image, after);
    Push(rows[0], after);
  }

  /** The relation between a run of a statement and the rows it selects. */
  ghost predicate Did(rows: seq<Row>, picked: seq<Row>, images: seq<Row>, run: Executed) {
    run.affected == |picked| && Exchanged(rows, picked, images, run.after)
  }

  lemma {:induction false} UpdateDefined(rows: seq<Row>, assignments: seq<Assignment>, selection: Expr, env: Env)
    requires ExecuteUpdate(rows, assignments, selection, env).Some?
    ensures Selected(rows, selection, env).Some?
    ensures AssignedAll(Selected(rows, selection, env).value, assignments, env).Some?
    ensures |AssignedAll(Selected(rows, selection, env).value, assignments, env).value|
         == |Selected(rows, selection, env).value|
  {
    hide Test, Assigned;
    if rows != [] {
      UpdateDefined(rows[1..], assignments, selection, env);
      var picked := Selected(rows[1..], selection, env).value;
      assert ([rows[0]] + picked)[1..] == picked;
    }
  }

  lemma ImagesPush(row: Row, picked: seq<Row>, assignments: seq<Assignment>, env: Env)
    requires Assigned(row, assignments, env).Some? && AssignedAll(picked, assignments, env).Some?
    ensures AssignedAll([row] + picked, assignments, env)
         == Some([Assigned(row, assignments, env).value] + AssignedAll(picked, assignments, env).value)
  {
    hide Assigned;
    assert ([row] + picked)[1..] == picked;
  }

  lemma DidReplace(rows: seq<Row>, picked: seq<Row>, images: seq<Row>, rest: Executed, image: Row)
    requires rows != [] && Did(rows[1..], picked, images, rest)
    ensures Did(rows, [rows[0]] + picked, [image] + images, Executed([image] + rest.after, rest.affected + 1))
  {
    ExchangeHead(rows, picked, images, rest.after, image);
    hide Exchanged;
  }

  lemma DidRemove(rows: seq<Row>, picked: seq<Row>, rest: Executed)
    requires rows != [] && Did(rows[1..], picked, [], rest)
    ensures Did(rows, [rows[0]] + picked, [], Executed(rest.after, rest.affected + 1))
  {
    ExchangeHead(rows, picked, [], rest.after, rows[0]);
    hide Exchanged;
  }

  lemma DidKeep(rows: seq<Row>, picked: seq<Row>, images: seq<Row>, rest: Executed)
    requires rows != [] && Did(rows[1..], picked, images, rest)
    ensures Did(rows, picked, images, Executed([rows[0]] + rest.after, rest.affected))
  {
    ExchangeHead(rows, picked, images, rest.after, rows[0]);
    hide Exchanged;
  }

  /**
   An UPDATE that goes through affects exactly the selected rows: it takes them out, puts their assigned
   images in, and leaves every other row as it was.
   */
  lemma {:induction false} UpdateAgrees(rows: seq<Row>, assignments: seq<Assignment>, selection: Expr, env: Env)
    requires ExecuteUpdate(rows, assignments, selection, env).Some?
    requires Selected(rows, selection, env).Some?
    requires AssignedAll(Selected(rows, selection, env).value, assignments, env).Some?
    ensures Did(rows, Selected(rows, selection, env).value,
                AssignedAll(Selected(rows, selection, env).value, assignments, env).value,
                ExecuteUpdate(rows, assignments, selection, env).value)
  {
    hide Test, Assigned, AssignedAll, Did;
    if rows == [] {
      NothingDone(assignments, env);
    } else {
      UpdateDefined(rows[1..], assignments, selection, env);
      UpdateAgrees(rows[1..], assignments, selection, env);
      var picked := Selected(rows[1..], selection, env).value;
      var rest := ExecuteUpdate(rows[1..], assignments, selection, env).value;
      var images := AssignedAll(picked, assignments, env).value;
      if Test(selection, rows[0], env) == Yes {
        var image := Assigned(rows[0], assignments, env).value;
        ImagesPush(rows[0], picked, assignments, env);
        DidReplace(rows, picked, images, rest, image);
        assert Selected(rows, selection, env).value == [rows[0]] + picked;
        assert ExecuteUpdate(rows, assignments, selection, env).value
            == Executed([image] + rest.after, rest.affected + 1);
      } else {
        DidKeep(rows, picked, images, rest);
        assert Selected(rows, selection, env).value == picked;
        assert ExecuteUpdate(rows, assignments, selection, env).value
            == Executed([rows[0]] + rest.after, rest.affected);
      }
    }
  }

  lemma NothingDone(assignments: seq<Assignment>, env: Env)
    ensures Did([], [], [], Executed([], 0)) && AssignedAll([], assignments, env) == Some([])
  {
  }

  lemma {:induction false} DeleteDefined(rows: seq<Row>, selection: Expr, env: Env)
    ensures ExecuteDelete(rows, selection, env).Some? <==> Selected(rows, selection, env).Some?
  {
    hide Test;
    if rows != [] {
      DeleteDefined(rows[1..], selection, env);
    }
  }

  /** A DELETE that goes through removes exactly the selected rows. */
  lemma {:induction false} DeleteAgrees(rows: seq<Row>, selection: Expr, env: Env)
    requires ExecuteDelete(rows, selection, env).Some? && Selected(rows, selection, env).Some?
    ensures Did(rows, Selected(rows, selection, env).value, [], ExecuteDelete(rows, selection, env).value)
  {
    hide Test, Did;
    if rows == [] {
      NothingDone([], env);
    } else {
      DeleteAgrees(rows[1..], selection, env);
      var picked := Selected(rows[1..], selection, env).value;
      var rest := ExecuteDelete(rows[1..], selection, env).value;
      if Test(selection, rows[0], env) == Yes {
        DidRemove(rows, picked, rest);
        assert Selected(rows, selection, env).value == [rows[0]] + picked;
        assert ExecuteDelete(rows, selection, env).value == Executed(rest.after, rest.affected + 1);
      } else {
        DidKeep(rows, picked, [], rest);
        assert Selected(rows, selection, env).value == picked;
        assert ExecuteDelete(rows, selection, env).value == Executed([rows[0]] + rest.after, rest.affected);
      }
    }
  }

  /** How often a row is selected depends on the contents of the table and not on their order. */
  lemma {:induction false} SelectedCount(rows: seq<Row>, selection: Expr, env: Env, r: Row)
    requires Selected(rows, selection, env).Some?
    ensures multiset(Selected(rows, selection, env).value)[r]
         == if Test(selection, r, env) == Yes then multiset(rows)[r] else 0
  {
    hide Test;
    if rows != [] {
      SelectedCount(rows[1..], selection, env, r);
      var rest := Selected(rows[1..], selection, env).value;
      assert Selected(rows, selection, env).value == if Test(selection, rows[0], env) == Yes then [rows[0]] + rest else rest;
      hide Selected;
      HeadAndTail(rows);
      Push(rows[0], rest);
    }
  }

  /** Selection fails exactly when some row's test is neither true, false nor null. */
  lemma {:induction false} SelectedDefined(rows: seq<Row>, selection: Expr, env: Env)
    ensures Selected(rows, selection, env).Some?
       <==> forall r | r in rows :: Test(selection, r, env) != Bad
  {
    hide Test;
    if rows != [] {
      SelectedDefined(rows[1..], selection, env);
      assert rows == [rows[0]] + rows[1..];
      assert Test(selection, rows[0], env) != Bad <==> Selected([rows[0]], selection, env).Some?;
    }
  }

  /** Two orders of the same rows select the same rows. */
  lemma SelectedPermutes(a: seq<Row>, b: seq<Row>, selection: Expr, env: Env)
    requires multiset(a) == multiset(b)
    ensures Selected(a, selection, env).Some? <==> Selected(b, selection, env).Some?
    ensures Selected(a, selection, env).Some? ==>
              multiset(Selected(a, selection, env).value) == multiset(Selected(b, selection, env).value)
  {
    hide Test, Selected;
    SelectedDefined(a, selection, env);
    SelectedDefined(b, selection, env);
    SameMembers(a, b);
    if Selected(a, selection, env).Some? {
      var x, y := multiset(Selected(a, selection, env).value), multiset(Selected(b, selection, env).value);
      forall r ensures x[r] == y[r] {
        SelectedCount(a, selection, env, r);
        SelectedCount(b, selection, env, r);
      }
    }
  }

  lemma SameMembers(a: seq<Row>, b: seq<Row>)
    requires multiset(a) == multiset(b)
    ensures forall r :: r in a <==> r in b
  {
    forall r ensures r in a <==> r in b {
      assert r in a <==> r in multiset(a);
      assert r in b <==> r in multiset(b);
    }
  }
}

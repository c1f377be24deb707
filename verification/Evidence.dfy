/**
 The target rows as evidence: their texts in order, what these determine, and what a second application of
 the same change can do.
 */
module Evidence {
  import opened Multisets
  import opened Sorting
  import opened Wrappers
  import opened Sql
  import opened SqlMeaning

  /** `to_jsonb(..)::text` of a whole row and of a single value. */
  datatype Rendering = Rendering(row: Row -> string, value: Value -> string)

  ghost predicate InjectiveRows(r: Rendering) {
    forall x, y :: r.row(x) == r.row(y) ==> x == y
  }

  ghost predicate InjectiveValues(r: Rendering) {
    forall x, y :: r.value(x) == r.value(y) ==> x == y
  }

  /** A column of the referenced name hides the row (section 8.16.5 of the PostgreSQL documentation). */
  predicate Shadowed(reference: Ident, row: Row) {
    NameOf(reference) in row
  }

  function RowText(reference: Ident, row: Row, r: Rendering): string {
    if Shadowed(reference, row) then r.value(row[NameOf(reference)]) else r.row(row)
  }

  function RowTexts(reference: Ident, rows: seq<Row>, r: Rendering): (texts: seq<string>)
    ensures |texts| == |rows|
  {
    if rows == [] then [] else [RowText(reference, rows[0], r)] + RowTexts(reference, rows[1..], r)
  }

  // ---------------------------------------------------------------- ordering

  type Order = (string, string) -> bool

  /** The result of the target query on the selected rows. */
  function TargetTexts(le: Order, reference: Ident, picked: seq<Row>, r: Rendering): (texts: seq<string>)
    ensures |texts| == |picked|
  {
    SortKeeps(le, RowTexts(reference, picked, r));
    Sort(le, RowTexts(reference, picked, r))
  }

  // ---------------------------------------------------------------- what the evidence determines

  /** Rows of a table with these columns. */
  predicate HasColumns(columns: set<string>, rows: seq<Row>) {
    forall i | 0 <= i < |rows| :: rows[i].Keys == columns
  }

  /** The text of a row determines the row, for rows of the given columns. */
  ghost predicate TextDetermines(reference: Ident, columns: set<string>, r: Rendering) {
    forall x: Row, y: Row | x.Keys == columns && y.Keys == columns ::
      RowText(reference, x, r) == RowText(reference, y, r) ==> x == y
  }

  /**
   Exactly when the evidence of a row is the row: no column has the name the rows go by, or it is the only
   column.
   */
  lemma EvidenceIsTheRowExactlyWhen(reference: Ident, columns: set<string>, r: Rendering)
    requires InjectiveRows(r) && InjectiveValues(r)
    ensures TextDetermines(reference, columns, r) <==> NameOf(reference) !in columns || columns == {NameOf(reference)}
  {
    var name := NameOf(reference);
    if name !in columns {
      forall x: Row, y: Row | x.Keys == columns && y.Keys == columns && RowText(reference, x, r) == RowText(reference, y, r)
        ensures x == y
      {
        assert name !in x && name !in y;
      }
    } else if columns == {name} {
      forall x: Row, y: Row | x.Keys == columns && y.Keys == columns && RowText(reference, x, r) == RowText(reference, y, r)
        ensures x == y
      {
        assert name in x.Keys && name in y.Keys;
        assert x[name] == y[name];
      }
    } else {
      var other :| other in columns && other != name;
      var x: Row := map c | c in columns :: VNull;
      var y: Row := map c | c in columns :: if c == other then VBool(true) else VNull;
      assert x.Keys == columns && y.Keys == columns;
      assert x[other] != y[other];
      assert RowText(reference, x, r) == RowText(reference, y, r);
    }
  }

  /** The exact condition, with no more about values than it needs. */
  ghost predicate Faithful(reference: Ident, columns: set<string>, r: Rendering) {
    && InjectiveRows(r)
    && (NameOf(reference) !in columns || (columns == {NameOf(reference)} && InjectiveValues(r)))
  }

  lemma FaithfulDetermines(reference: Ident, columns: set<string>, r: Rendering)
    requires Faithful(reference, columns, r)
    ensures TextDetermines(reference, columns, r)
  {
    var name := NameOf(reference);
    forall x: Row, y: Row | x.Keys == columns && y.Keys == columns && RowText(reference, x, r) == RowText(reference, y, r)
      ensures x == y
    {
      assert name in columns <==> name in x.Keys;
      assert name in columns <==> name in y.Keys;
      if name in columns {
        assert x[name] == y[name];
      }
    }
  }

  /** Each row appears among the rows as often as its text among the texts. */
  lemma {:induction false} TextCount(reference: Ident, columns: set<string>, rows: seq<Row>, r: Rendering, x: Row)
    requires TextDetermines(reference, columns, r) && HasColumns(columns, rows) && x.Keys == columns
    ensures multiset(RowTexts(reference, rows, r))[RowText(reference, x, r)] == multiset(rows)[x]
  {
    hide RowText;
    if rows != [] {
      TextCount(reference, columns, rows[1..], r, x);
      HeadAndTail(rows);
      Push(RowText(reference, rows[0], r), RowTexts(reference, rows[1..], r));
      assert RowText(reference, rows[0], r) == RowText(reference, x, r) ==> rows[0] == x;
    }
  }

  /** Where a text determines its row, equal evidence means equal row multisets, even of rows in another order. */
  lemma EvidenceBindsRows(le: Order, reference: Ident, columns: set<string>, a: seq<Row>, b: seq<Row>, r: Rendering)
    requires TextDetermines(reference, columns, r) && HasColumns(columns, a) && HasColumns(columns, b)
    requires TargetTexts(le, reference, a, r) == TargetTexts(le, reference, b, r)
    ensures multiset(a) == multiset(b)
  {
    SortKeeps(le, RowTexts(reference, a, r));
    SortKeeps(le, RowTexts(reference, b, r));
    forall x ensures multiset(a)[x] == multiset(b)[x] {
      if x.Keys == columns {
        TextCount(reference, columns, a, r, x);
        TextCount(reference, columns, b, r, x);
      } else {
        assert x !in a && x !in b;
      }
    }
  }

  lemma TextsPush(reference: Ident, row: Row, rows: seq<Row>, r: Rendering)
    ensures multiset(RowTexts(reference, [row] + rows, r))
         == multiset{RowText(reference, row, r)} + multiset(RowTexts(reference, rows, r))
  {
    hide RowText;
    assert ([row] + rows)[1..] == rows;
    Push(RowText(reference, row, r), RowTexts(reference, rows, r));
  }

  lemma {:induction false} TextsRemove(reference: Ident, rows: seq<Row>, r: Rendering, k: nat)
    requires k < |rows|
    ensures multiset(RowTexts(reference, rows, r))
         == multiset{RowText(reference, rows[k], r)} + multiset(RowTexts(reference, Without(rows, k), r))
  {
    hide RowText, Without, RowTexts;
    WithoutLater(rows, k);
    assert rows == [rows[0]] + rows[1..];
    TextsPush(reference, rows[0], rows[1..], r);
    if k > 0 {
      var less := Without(rows[1..], k - 1);
      TextsRemove(reference, rows[1..], r, k - 1);
      TextsPush(reference, rows[0], less, r);
      Swap(RowText(reference, rows[0], r), RowText(reference, rows[k], r), multiset(RowTexts(reference, less, r)));
    }
  }

  lemma {:induction false} TextsPermute(reference: Ident, a: seq<Row>, b: seq<Row>, r: Rendering)
    requires multiset(a) == multiset(b)
    ensures multiset(RowTexts(reference, a, r)) == multiset(RowTexts(reference, b, r))
  {
    hide RowText, Without;
    if a == [] {
      assert |b| == |multiset(b)| == |multiset(a)| == 0;
    } else {
      var k := PermutedTail(a, b);
      TextsPermute(reference, a[1..], Without(b, k), r);
      TextsRemove(reference, b, r, k);
      Push(RowText(reference, a[0], r), RowTexts(reference, a[1..], r));
    }
  }

  /** Evidence does not depend on the order in which the rows are found. */
  lemma EvidencePermutes(le: Order, reference: Ident, a: seq<Row>, b: seq<Row>, r: Rendering)
    requires TotalOrder(le) && multiset(a) == multiset(b)
    ensures TargetTexts(le, reference, a, r) == TargetTexts(le, reference, b, r)
  {
    var x, y := RowTexts(reference, a, r), RowTexts(reference, b, r);
    TextsPermute(reference, a, b, r);
    SortKeeps(le, x);
    SortKeeps(le, y);
    SortAscends(le, x);
    SortAscends(le, y);
    AscendingUnique(le, Sort(le, x), Sort(le, y));
  }

  // ---------------------------------------------------------------- applying the same change again

  /** The images of some rows as a multiset, when all of them exist. */
  ghost predicate Images(rows: seq<Row>, assignments: seq<Assignment>, env: Env, m: multiset<Row>) {
    AssignedAll(rows, assignments, env).Some? && multiset(AssignedAll(rows, assignments, env).value) == m
  }

  lemma ImagesHead(row: Row, rows: seq<Row>, assignments: seq<Assignment>, env: Env, m: multiset<Row>)
    ensures Assigned(row, assignments, env).Some? && Images(rows, assignments, env, m) ==>
              Images([row] + rows, assignments, env, multiset{Assigned(row, assignments, env).value} + m)
    ensures AssignedAll([row] + rows, assignments, env).Some? ==>
              Assigned(row, assignments, env).Some? && AssignedAll(rows, assignments, env).Some?
  {
    hide Assigned;
    assert ([row] + rows)[1..] == rows;
    if Assigned(row, assignments, env).Some? && Images(rows, assignments, env, m) {
      Push(Assigned(row, assignments, env).value, AssignedAll(rows, assignments, env).value);
    }
  }

  lemma {:induction false} ImagesRemove(rows: seq<Row>, assignments: seq<Assignment>, env: Env, k: nat)
    returns (m: multiset<Row>)
    requires k < |rows| && AssignedAll(rows, assignments, env).Some?
    ensures Assigned(rows[k], assignments, env).Some? && Images(Without(rows, k), assignments, env, m)
    ensures Images(rows, assignments, env, multiset{Assigned(rows[k], assignments, env).value} + m)
  {
    WithoutLater(rows, k);
    assert rows == [rows[0]] + rows[1..];
    ImagesHead(rows[0], rows[1..], assignments, env, multiset{});
    if k == 0 {
      m := multiset(AssignedAll(rows[1..], assignments, env).value);
      hide Assigned, Without, AssignedAll;
      ImagesHead(rows[0], rows[1..], assignments, env, m);
    } else {
      hide Assigned, Without, Images;
      var less := Without(rows[1..], k - 1);
      var rest := ImagesRemove(rows[1..], assignments, env, k - 1);
      var first, kth := Assigned(rows[0], assignments, env).value, Assigned(rows[k], assignments, env).value;
      m := multiset{first} + rest;
      ImagesHead(rows[0], less, assignments, env, rest);
      ImagesHead(rows[0], rows[1..], assignments, env, multiset{kth} + rest);
      Swap(first, kth, rest);
    }
  }

  /** What an UPDATE writes depends on which rows it takes and not on their order. */
  lemma {:induction false} ImagesPermute(a: seq<Row>, b: seq<Row>, assignments: seq<Assignment>, env: Env)
    requires multiset(a) == multiset(b)
    requires AssignedAll(a, assignments, env).Some? && AssignedAll(b, assignments, env).Some?
    ensures multiset(AssignedAll(a, assignments, env).value) == multiset(AssignedAll(b, assignments, env).value)
  {
    if a == [] {
      assert |b| == |multiset(b)| == |multiset(a)| == 0;
    } else {
      var k := PermutedTail(a, b);
      var m := ImagesRemove(b, assignments, env, k);
      hide Assigned, Without;
      assert a == [a[0]] + a[1..];
      ImagesHead(a[0], a[1..], assignments, env, multiset{});
      ImagesPermute(a[1..], Without(b, k), assignments, env);
      ImagesHead(a[0], a[1..], assignments, env, m);
    }
  }

  /** A change whose result selects the rows it selected before was no change at all. */
  lemma ReselectionMeansNoChange(before: seq<Row>, picked: seq<Row>, images: seq<Row>, after: seq<Row>,
                                 again: seq<Row>, selection: Expr, env: Env)
    requires Selected(before, selection, env) == Some(picked) && Exchanged(before, picked, images, after)
    requires |images| <= |picked|
    requires Selected(after, selection, env) == Some(again) && multiset(again) == multiset(picked)
    ensures multiset(after) == multiset(before) && multiset(images) == multiset(picked)
  {
    hide Test, Selected;
    forall x ensures multiset(again)[x] <= multiset(images)[x] {
      SelectedCount(before, selection, env, x);
      SelectedCount(after, selection, env, x);
    }
    assert multiset(again) <= multiset(images);
    assert |multiset(again)| == |multiset(picked)| == |picked| && |multiset(images)| == |images|;
    SameSize(multiset(again), multiset(images));
  }
}

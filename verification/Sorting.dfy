/** Sorting by an order given as a parameter. */
module Sorting {
  import opened Multisets

  /** An order under which only equal elements tie. */
  ghost predicate TotalOrder<T(!new)>(le: (T, T) -> bool) {
    && (forall x, y :: le(x, y) || le(y, x))
    && (forall x, y :: le(x, y) && le(y, x) ==> x == y)
    && (forall x, y, z :: le(x, y) && le(y, z) ==> le(x, z))
  }

  function Insert<T>(le: (T, T) -> bool, x: T, s: seq<T>): seq<T> {
    if s == [] || le(x, s[0]) then [x] + s else [s[0]] + Insert(le, x, s[1..])
  }

  /** Ascending order, as `ORDER BY` and `sorted` produce it. */
  function Sort<T>(le: (T, T) -> bool, s: seq<T>): seq<T> {
    if s == [] then [] else Insert(le, s[0], Sort(le, s[1..]))
  }

  predicate Ascending<T>(le: (T, T) -> bool, s: seq<T>) {
    forall i, j | 0 <= i < j < |s| :: le(s[i], s[j])
  }

  lemma {:induction false} InsertKeeps<T>(le: (T, T) -> bool, x: T, s: seq<T>)
    ensures multiset(Insert(le, x, s)) == multiset{x} + multiset(s)
    ensures |Insert(le, x, s)| == |s| + 1
  {
    if s != [] && !le(x, s[0]) {
      InsertKeeps(le, x, s[1..]);
      assert s == [s[0]] + s[1..];
      Push(s[0], s[1..]);
      Push(s[0], Insert(le, x, s[1..]));
    } else {
      Push(x, s);
    }
  }

  lemma {:induction false} SortKeeps<T>(le: (T, T) -> bool, s: seq<T>)
    ensures multiset(Sort(le, s)) == multiset(s) && |Sort(le, s)| == |s|
  {
    if s != [] {
      SortKeeps(le, s[1..]);
      InsertKeeps(le, s[0], Sort(le, s[1..]));
      assert s == [s[0]] + s[1..];
      Push(s[0], s[1..]);
    }
  }

  lemma AscendingPush<T>(le: (T, T) -> bool, x: T, s: seq<T>)
    requires Ascending(le, s) && forall y | y in s :: le(x, y)
    ensures Ascending(le, [x] + s)
  {
    forall i, j | 0 <= i < j < |s| + 1 ensures le(([x] + s)[i], ([x] + s)[j]) {
      assert s[j - 1] in s;
    }
  }

  lemma {:induction false} InsertAscends<T(!new)>(le: (T, T) -> bool, x: T, s: seq<T>)
    requires TotalOrder(le) && Ascending(le, s)
    ensures Ascending(le, Insert(le, x, s))
  {
    if s == [] {
    } else if le(x, s[0]) {
      forall y | y in s ensures le(x, y) {
        var k :| 0 <= k < |s| && s[k] == y;
        assert k > 0 ==> le(s[0], s[k]);
      }
      AscendingPush(le, x, s);
    } else {
      var rest := Insert(le, x, s[1..]);
      InsertAscends(le, x, s[1..]);
      InsertKeeps(le, x, s[1..]);
      forall y | y in rest ensures le(s[0], y) {
        assert y in multiset(rest);
        assert y == x || y in s[1..];
      }
      AscendingPush(le, s[0], rest);
    }
  }

  lemma {:induction false} SortAscends<T(!new)>(le: (T, T) -> bool, s: seq<T>)
    requires TotalOrder(le)
    ensures Ascending(le, Sort(le, s))
  {
    if s != [] {
      SortAscends(le, s[1..]);
      InsertAscends(le, s[0], Sort(le, s[1..]));
    }
  }

  /** There is one ascending order of given elements. */
  lemma {:induction false} AscendingUnique<T(!new)>(le: (T, T) -> bool, x: seq<T>, y: seq<T>)
    requires TotalOrder(le) && Ascending(le, x) && Ascending(le, y) && multiset(x) == multiset(y)
    ensures x == y
  {
    if x == [] || y == [] {
      assert |x| == |multiset(x)| == |multiset(y)| == |y|;
    } else {
      LeastFirst(le, x, y);
      LeastFirst(le, y, x);
      assert x[0] == y[0];
      assert x == [x[0]] + x[1..] && y == [y[0]] + y[1..];
      Push(x[0], x[1..]);
      Push(y[0], y[1..]);
      assert multiset(x[1..]) == multiset(x) - multiset{x[0]};
      assert multiset(y[1..]) == multiset(y) - multiset{y[0]};
      AscendingUnique(le, x[1..], y[1..]);
    }
  }

  lemma LeastFirst<T(!new)>(le: (T, T) -> bool, x: seq<T>, y: seq<T>)
    requires TotalOrder(le) && Ascending(le, x) && x != [] && y != [] && multiset(x) == multiset(y)
    ensures le(x[0], y[0])
  {
    assert y[0] in multiset(y);
    assert y[0] in multiset(x);
    var k :| 0 <= k < |x| && x[k] == y[0];
    assert k > 0 ==> le(x[0], x[k]);
  }
}

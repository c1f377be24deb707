/** Small facts about sequences and the multisets of their elements. */
module Multisets {
  lemma Push<T>(x: T, s: seq<T>)
    ensures multiset([x] + s) == multiset{x} + multiset(s)
  {
  }

  lemma Swap<T>(x: T, y: T, m: multiset<T>)
    ensures multiset{x} + (multiset{y} + m) == multiset{y} + (multiset{x} + m)
  {
  }

  lemma SameSize<T>(a: multiset<T>, b: multiset<T>)
    requires a <= b && |b| <= |a|
    ensures a == b
  {
    assert b == a + (b - a);
    assert |b - a| == 0;
  }

  function Without<T>(rows: seq<T>, k: nat): seq<T>
    requires k < |rows|
  {
    rows[..k] + rows[k + 1..]
  }

  lemma WithoutLater<T>(rows: seq<T>, k: nat)
    requires k < |rows|
    ensures k == 0 ==> Without(rows, k) == rows[1..]
    ensures k > 0 ==> Without(rows, k) == [rows[0]] + Without(rows[1..], k - 1)
  {
  }

  lemma PermutedTail<T>(a: seq<T>, b: seq<T>) returns (k: nat)
    requires a != [] && multiset(a) == multiset(b)
    ensures k < |b| && b[k] == a[0] && multiset(a[1..]) == multiset(Without(b, k))
  {
    assert a[0] in multiset(b);
    k :| 0 <= k < |b| && b[k] == a[0];
    assert a == [a[0]] + a[1..];
    Push(a[0], a[1..]);
    RemoveOne(b, k);
    assert multiset(a[1..]) == multiset(a) - multiset{a[0]};
    assert multiset(Without(b, k)) == multiset(b) - multiset{a[0]};
  }

  lemma RemoveOne<T>(rows: seq<T>, k: nat)
    requires k < |rows|
    ensures multiset(rows) == multiset{rows[k]} + multiset(Without(rows, k))
  {
    assert rows == rows[..k] + ([rows[k]] + rows[k + 1..]);
    Push(rows[k], rows[k + 1..]);
  }
}

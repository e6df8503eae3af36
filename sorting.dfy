/** Python's `sorted(xs, key=...)` / `list.sort(key=...)`: a stable sort by a
    real-valued key, written as an insertion sort. Stability is stated through a
    position that increases along the input: once sorted, equal keys keep the
    order of their positions, so the output is ordered strictly by (key, position). */
module Sorting {

  /** Inserts `x` after every element whose key is at most `key(x)`. */
  function Insert<T>(x: T, s: seq<T>, key: T -> real): (r: seq<T>)
    ensures |r| == |s| + 1
    ensures multiset(r) == multiset(s) + multiset{x}
  {
    if s == [] then [x]
    else if key(x) < key(s[0]) then [x] + s
    else
      assert s == [s[0]] + s[1..];
      [s[0]] + Insert(x, s[1..], key)
  }

  function SortBy<T>(xs: seq<T>, key: T -> real): (r: seq<T>)
    ensures |r| == |xs|
    ensures multiset(r) == multiset(xs)
  {
    if xs == [] then []
    else
      assert xs == xs[..|xs| - 1] + [xs[|xs| - 1]];
      Insert(xs[|xs| - 1], SortBy(xs[..|xs| - 1], key), key)
  }

  predicate Precedes<T>(a: T, b: T, key: T -> real, pos: T -> int)
  {
    key(a) < key(b) || (key(a) == key(b) && pos(a) < pos(b))
  }

  /** Ordered by key, ties ordered by position, no two elements equivalent. */
  ghost predicate StrictlyOrdered<T>(s: seq<T>, key: T -> real, pos: T -> int)
  {
    forall i, j :: 0 <= i < j < |s| ==> Precedes(s[i], s[j], key, pos)
  }

  ghost predicate PositionsIncrease<T>(s: seq<T>, pos: T -> int)
  {
    forall i, j :: 0 <= i < j < |s| ==> pos(s[i]) < pos(s[j])
  }

  lemma {:induction false} InsertKeepsOrder<T>(x: T, s: seq<T>, key: T -> real, pos: T -> int)
    requires StrictlyOrdered(s, key, pos)
    requires forall y :: y in s ==> pos(y) < pos(x)
    ensures StrictlyOrdered(Insert(x, s, key), key, pos)
  {
    if s != [] {
      var r := Insert(x, s, key);
      if key(x) < key(s[0]) {
        assert r == [x] + s;
        forall j | 0 < j < |r| ensures Precedes(r[0], r[j], key, pos) {
          if j > 1 {
            assert Precedes(s[0], s[j - 1], key, pos);
          }
        }
      } else {
        var t := Insert(x, s[1..], key);
        assert r == [s[0]] + t;
        InsertKeepsOrder(x, s[1..], key, pos);
        forall j | 0 <= j < |t| ensures Precedes(s[0], t[j], key, pos) {
          assert t[j] in multiset(t);
          if t[j] != x {
            assert t[j] in s[1..];
            var k :| 0 <= k < |s[1..]| && s[1..][k] == t[j];
            assert Precedes(s[0], s[k + 1], key, pos);
          }
        }
      }
    }
  }

  /** The sort is stable: an input listed in increasing position comes out
      ordered by key with ties in their original order. */
  lemma {:induction false} SortByStable<T>(xs: seq<T>, key: T -> real, pos: T -> int)
    requires PositionsIncrease(xs, pos)
    ensures StrictlyOrdered(SortBy(xs, key), key, pos)
  {
    if xs != [] {
      var init, x := xs[..|xs| - 1], xs[|xs| - 1];
      SortByStable(init, key, pos);
      var s := SortBy(init, key);
      forall y | y in s ensures pos(y) < pos(x) {
        assert y in multiset(init);
        var k :| 0 <= k < |init| && init[k] == y;
      }
      InsertKeepsOrder(x, s, key, pos);
    }
  }

  /** Strictly ordered implies ordered by key alone. */
  lemma StrictlyOrderedAscending<T>(s: seq<T>, key: T -> real, pos: T -> int, i: int, j: int)
    requires StrictlyOrdered(s, key, pos)
    requires 0 <= i <= j < |s|
    ensures key(s[i]) <= key(s[j])
  {
    if i < j {
      assert Precedes(s[i], s[j], key, pos);
    }
  }
}

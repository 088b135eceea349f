/**
 * Python's `sorted(items, key=lambda x: x[1], reverse=True)` and
 * `items.sort(key=lambda x: x[1], reverse=True)` on (value, count) pairs:
 * a stable sort, most first, in which pairs with equal counts keep their
 * relative order.
 */
module Ranking {

  /** Descending by the second component. */
  predicate SortedDesc<T>(s: seq<(T, int)>)
  {
    forall i, j :: 0 <= i < j < |s| ==> s[i].1 >= s[j].1
  }

  /** The pairs whose count is `m`, in their order. */
  function WithCount<T>(s: seq<(T, int)>, m: int): seq<(T, int)>
  {
    if s == [] then [] else (if s[0].1 == m then [s[0]] else []) + WithCount(s[1..], m)
  }

  /** Places `x` before the first pair whose count is not larger than its own. */
  function InsertDesc<T>(x: (T, int), s: seq<(T, int)>): (r: seq<(T, int)>)
    ensures |r| == |s| + 1
    ensures multiset(r) == multiset(s) + multiset{x}
  {
    if s == [] || s[0].1 <= x.1 then [x] + s
    else
      assert s == [s[0]] + s[1..];
      [s[0]] + InsertDesc(x, s[1..])
  }

  lemma {:induction false} InsertDescSorted<T>(x: (T, int), s: seq<(T, int)>)
    requires SortedDesc(s)
    ensures SortedDesc(InsertDesc(x, s))
    decreases |s|
  {
    if s != [] && s[0].1 > x.1 {
      var rest := InsertDesc(x, s[1..]);
      InsertDescSorted(x, s[1..]);
      forall k | 0 <= k < |rest| ensures rest[k].1 <= s[0].1 {
        assert rest[k] in multiset(rest);
        if rest[k] != x {
          assert rest[k] in multiset(s[1..]);
          var j :| 0 <= j < |s[1..]| && s[1..][j] == rest[k];
          assert s[j + 1] == rest[k];
        }
      }
      var r := [s[0]] + rest;
      forall i, j | 0 <= i < j < |r| ensures r[i].1 >= r[j].1 {
        if i > 0 {
          assert r[i] == rest[i - 1];
        }
        assert r[j] == rest[j - 1];
      }
    }
  }

  /** The stable descending sort, as insertion of each pair into the sorted rest. */
  function SortDesc<T>(s: seq<(T, int)>): (r: seq<(T, int)>)
    ensures |r| == |s|
    ensures multiset(r) == multiset(s)
    ensures SortedDesc(r)
  {
    if s == [] then []
    else
      assert s == [s[0]] + s[1..];
      InsertDescSorted(s[0], SortDesc(s[1..]));
      InsertDesc(s[0], SortDesc(s[1..]))
  }

  lemma {:induction false} InsertDescKeepsOrder<T>(x: (T, int), s: seq<(T, int)>, m: int)
    ensures WithCount(InsertDesc(x, s), m) == (if x.1 == m then [x] else []) + WithCount(s, m)
    decreases |s|
  {
    if s == [] || s[0].1 <= x.1 {
      assert ([x] + s)[1..] == s;
    } else {
      var rest := InsertDesc(x, s[1..]);
      assert ([s[0]] + rest)[1..] == rest;
      InsertDescKeepsOrder(x, s[1..], m);
    }
  }

  /** The sort is stable: the pairs with any one count keep their order. */
  lemma {:induction false} SortDescStable<T>(s: seq<(T, int)>, m: int)
    ensures WithCount(SortDesc(s), m) == WithCount(s, m)
    decreases |s|
  {
    if s != [] {
      SortDescStable(s[1..], m);
      InsertDescKeepsOrder(s[0], SortDesc(s[1..]), m);
    }
  }

  /** The first pair after the sort has the largest count. */
  lemma FirstIsLargest<T>(s: seq<(T, int)>)
    requires s != []
    ensures forall i :: 0 <= i < |s| ==> s[i].1 <= SortDesc(s)[0].1
    ensures exists i :: 0 <= i < |s| && s[i].1 == SortDesc(s)[0].1
  {
    var r := SortDesc(s);
    forall i | 0 <= i < |s| ensures s[i].1 <= r[0].1 {
      assert s[i] in multiset(r);
      var k :| 0 <= k < |r| && r[k] == s[i];
    }
    assert r[0] in multiset(s);
  }
}

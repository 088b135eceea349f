/**
 * Combinations of lottery numbers and the list operations the services apply
 * to them: `sorted()`, `tuple(sorted(...))` as an order-free key, `set(...)`,
 * `sum(...)` and counting comprehensions.
 *
 * A Combination is six distinct integers in 1..45 in ascending order.
 */
module Combos {

  const ComboSize: int := 6
  const MinNumber: int := 1
  const MaxNumber: int := 45

  predicate Sorted(s: seq<int>)
  {
    forall i, j :: 0 <= i < j < |s| ==> s[i] <= s[j]
  }

  predicate StrictlyAscending(s: seq<int>)
  {
    forall i, j :: 0 <= i < j < |s| ==> s[i] < s[j]
  }

  predicate Distinct<T(==)>(s: seq<T>)
  {
    forall i, j :: 0 <= i < j < |s| ==> s[i] != s[j]
  }

  predicate AllInRange(s: seq<int>, lo: int, hi: int)
  {
    forall i :: 0 <= i < |s| ==> lo <= s[i] <= hi
  }

  /** Six distinct numbers of 1..45, in any order. */
  predicate IsDraw(s: seq<int>)
  {
    |s| == ComboSize && Distinct(s) && AllInRange(s, MinNumber, MaxNumber)
  }

  /** Every element of `ds` is a draw. */
  predicate AllDraws(ds: seq<seq<int>>)
  {
    forall i :: 0 <= i < |ds| ==> IsDraw(ds[i])
  }

  /** A Combination: a draw stored in ascending order. */
  predicate IsCombination(s: seq<int>)
  {
    IsDraw(s) && Sorted(s)
  }

  /** Python's `set(s)`. */
  function SetOf(s: seq<int>): set<int>
  {
    set x | x in s
  }

  lemma {:induction false} SetOfSizeBound(s: seq<int>)
    ensures |SetOf(s)| <= |s|
  {
    if s != [] {
      SetOfSizeBound(s[1..]);
      assert SetOf(s) == {s[0]} + SetOf(s[1..]);
    }
  }

  /** `len(set(s)) == len(s)` is exactly "no number repeats". */
  lemma {:induction false} DistinctIffSetSize(s: seq<int>)
    ensures Distinct(s) <==> |SetOf(s)| == |s|
  {
    if s != [] {
      var t := s[1..];
      DistinctIffSetSize(t);
      SetOfSizeBound(t);
      assert SetOf(s) == {s[0]} + SetOf(t);
      if s[0] in t {
        var j :| 0 <= j < |t| && t[j] == s[0];
        assert s[0] == s[j + 1];
        assert SetOf(s) == SetOf(t);
      } else {
        assert |SetOf(s)| == 1 + |SetOf(t)|;
        if Distinct(t) {
          forall i, j | 0 <= i < j < |s| ensures s[i] != s[j] {
            if i > 0 { assert s[i] == t[i - 1] && s[j] == t[j - 1]; }
            else { assert s[j] == t[j - 1]; }
          }
        }
        if Distinct(s) {
          forall i, j | 0 <= i < j < |t| ensures t[i] != t[j] {
            assert t[i] == s[i + 1] && t[j] == s[j + 1];
          }
        }
      }
    }
  }

  /** Inserts `x` into an ascending sequence. */
  function Insert(x: int, s: seq<int>): (r: seq<int>)
    requires Sorted(s)
    ensures Sorted(r) && multiset(r) == multiset(s) + multiset{x} && |r| == |s| + 1
  {
    if s == [] || x <= s[0] then
      InsertFront(x, s);
      [x] + s
    else
      SortedTail(s);
      var rest := Insert(x, s[1..]);
      InsertBehind(x, s, rest);
      [s[0]] + rest
  }

  lemma SortedTail(s: seq<int>)
    requires Sorted(s) && s != []
    ensures Sorted(s[1..])
  {
    var t := s[1..];
    forall i, j | 0 <= i < j < |t| ensures t[i] <= t[j] {
      assert t[i] == s[i + 1] && t[j] == s[j + 1];
    }
  }

  /** `x` no larger than the head goes in front. */
  lemma InsertFront(x: int, s: seq<int>)
    requires Sorted(s) && (s == [] || x <= s[0])
    ensures Sorted([x] + s) && multiset([x] + s) == multiset(s) + multiset{x}
  {
    var r := [x] + s;
    forall i, j | 0 <= i < j < |r| ensures r[i] <= r[j] {
      assert r[j] == s[j - 1];
      if i > 0 {
        assert r[i] == s[i - 1];
      } else {
        assert s[0] <= s[j - 1];
      }
    }
  }

  /** Keeping the head and inserting `x` into the tail. */
  lemma InsertBehind(x: int, s: seq<int>, rest: seq<int>)
    requires Sorted(s) && s != [] && s[0] < x
    requires Sorted(rest) && multiset(rest) == multiset(s[1..]) + multiset{x}
    ensures Sorted([s[0]] + rest) && multiset([s[0]] + rest) == multiset(s) + multiset{x}
  {
    assert s == [s[0]] + s[1..];
    assert multiset([s[0]] + rest) == multiset{s[0]} + multiset(rest);
    forall k | 0 <= k < |rest| ensures s[0] <= rest[k] {
      assert rest[k] in multiset(rest);
      if rest[k] != x {
        assert rest[k] in multiset(s[1..]);
        var m :| 0 <= m < |s[1..]| && s[1..][m] == rest[k];
        assert s[m + 1] == rest[k];
      }
    }
    ConsSorted(s[0], rest);
  }

  /** A sorted sequence stays sorted behind a head no larger than any of its elements. */
  lemma ConsSorted(h: int, rest: seq<int>)
    requires Sorted(rest) && forall k :: 0 <= k < |rest| ==> h <= rest[k]
    ensures Sorted([h] + rest)
  {
    var r := [h] + rest;
    forall i, j | 0 <= i < j < |r| ensures r[i] <= r[j] {
      assert r[j] == rest[j - 1];
      if i > 0 {
        assert r[i] == rest[i - 1];
      }
    }
  }

  /** Python's `sorted(s)` on integers: the ascending permutation of `s`. */
  function SortAsc(s: seq<int>): (r: seq<int>)
    ensures Sorted(r) && |r| == |s|
  {
    if s == [] then [] else Insert(s[0], SortAsc(s[1..]))
  }

  /** `sorted(s)` holds exactly the numbers of `s`, with their multiplicities. */
  lemma {:induction false} SortAscPermutes(s: seq<int>)
    ensures multiset(SortAsc(s)) == multiset(s)
  {
    if s != [] {
      SortAscPermutes(s[1..]);
      assert s == [s[0]] + s[1..];
    }
  }

  lemma HeadIsLeast(a: seq<int>, x: int)
    requires Sorted(a) && a != [] && x in multiset(a)
    ensures a[0] <= x
  {
    var i :| 0 <= i < |a| && a[i] == x;
  }

  lemma TailMultiset(a: seq<int>)
    requires a != []
    ensures multiset(a[1..]) == multiset(a) - multiset{a[0]}
  {
    assert a == [a[0]] + a[1..];
  }

  lemma SameLength(a: seq<int>, b: seq<int>)
    requires multiset(a) == multiset(b)
    ensures |a| == |b|
  {
    assert |multiset(a)| == |multiset(b)|;
  }

  /** Two ascending sequences with the same elements are equal. */
  lemma {:induction false} SortedUnique(a: seq<int>, b: seq<int>)
    requires Sorted(a) && Sorted(b) && multiset(a) == multiset(b)
    ensures a == b
    decreases |a|
  {
    SameLength(a, b);
    if a != [] {
      assert a[0] == b[0] by {
        assert a[0] in multiset(a) && b[0] in multiset(b);
        HeadIsLeast(a, b[0]);
        HeadIsLeast(b, a[0]);
      }
      assert a[1..] == b[1..] by {
        TailMultiset(a);
        TailMultiset(b);
        SortedTail(a);
        SortedTail(b);
        SortedUnique(a[1..], b[1..]);
      }
      assert a == [a[0]] + a[1..];
      assert b == [b[0]] + b[1..];
    }
  }

  /** `sorted` depends only on which numbers occur, not on their order. */
  lemma SortAscOfPermutation(a: seq<int>, b: seq<int>)
    requires multiset(a) == multiset(b)
    ensures SortAsc(a) == SortAsc(b)
  {
    SortAscPermutes(a);
    SortAscPermutes(b);
    SortedUnique(SortAsc(a), SortAsc(b));
  }

  lemma SortAscOfSorted(s: seq<int>)
    requires Sorted(s)
    ensures SortAsc(s) == s
  {
    SortAscPermutes(s);
    SortedUnique(SortAsc(s), s);
  }

  /** Permutations have the same set and the same length. */
  lemma PermutationSameSet(a: seq<int>, b: seq<int>)
    requires multiset(a) == multiset(b)
    ensures SetOf(a) == SetOf(b) && |a| == |b|
  {
    assert |multiset(a)| == |multiset(b)|;
    forall x ensures x in SetOf(a) <==> x in SetOf(b) {
      assert x in a <==> x in multiset(a);
      assert x in b <==> x in multiset(b);
    }
  }

  lemma PermutationKeepsDraw(a: seq<int>, b: seq<int>)
    requires multiset(a) == multiset(b)
    ensures Distinct(a) <==> Distinct(b)
    ensures AllInRange(a, MinNumber, MaxNumber) <==> AllInRange(b, MinNumber, MaxNumber)
    ensures IsDraw(a) <==> IsDraw(b)
  {
    PermutationSameSet(a, b);
    DistinctIffSetSize(a);
    DistinctIffSetSize(b);
    forall i | 0 <= i < |a| ensures a[i] in b { assert a[i] in multiset(a); }
    forall i | 0 <= i < |b| ensures b[i] in a { assert b[i] in multiset(b); }
  }

  lemma SortedDistinctIsStrict(s: seq<int>)
    requires Sorted(s) && Distinct(s)
    ensures StrictlyAscending(s)
  {
  }

  /** `tuple(sorted(s))` of a draw is a Combination. */
  lemma SortAscOfDraw(s: seq<int>)
    requires IsDraw(s)
    ensures IsCombination(SortAsc(s)) && StrictlyAscending(SortAsc(s))
  {
    SortAscPermutes(s);
    PermutationKeepsDraw(s, SortAsc(s));
  }

  /** Python's `sum(s)`. */
  function Sum(s: seq<int>): int
  {
    if s == [] then 0 else s[0] + Sum(s[1..])
  }

  /** `sum(1 for n in s if p(n))`. */
  function Count(s: seq<int>, p: int -> bool): nat
  {
    if s == [] then 0 else (if p(s[0]) then 1 else 0) + Count(s[1..], p)
  }

  /** `s` without its element at index `k`. */
  function RemoveAt(s: seq<int>, k: nat): (r: seq<int>)
    requires k < |s|
    ensures |r| == |s| - 1
  {
    s[..k] + s[k + 1..]
  }

  lemma RemoveAtMultiset(s: seq<int>, k: nat)
    requires k < |s|
    ensures multiset(RemoveAt(s, k)) == multiset(s) - multiset{s[k]}
  {
    assert s == s[..k] + [s[k]] + s[k + 1..];
  }

  lemma RemoveAtCons(s: seq<int>, k: nat)
    requires 0 < k < |s|
    ensures RemoveAt(s, k) == [s[0]] + RemoveAt(s[1..], k - 1)
  {
    assert s[..k] == [s[0]] + s[1..][..k - 1];
    assert s[k + 1..] == s[1..][k..];
  }

  lemma {:induction false} SumRemoveAt(s: seq<int>, k: nat)
    requires k < |s|
    ensures Sum(s) == s[k] + Sum(RemoveAt(s, k))
  {
    if k > 0 {
      SumRemoveAt(s[1..], k - 1);
      RemoveAtCons(s, k);
      assert ([s[0]] + RemoveAt(s[1..], k - 1))[1..] == RemoveAt(s[1..], k - 1);
    } else {
      assert RemoveAt(s, 0) == s[1..];
    }
  }

  lemma {:induction false} CountRemoveAt(s: seq<int>, k: nat, p: int -> bool)
    requires k < |s|
    ensures Count(s, p) == (if p(s[k]) then 1 else 0) + Count(RemoveAt(s, k), p)
  {
    if k > 0 {
      CountRemoveAt(s[1..], k - 1, p);
      RemoveAtCons(s, k);
      assert ([s[0]] + RemoveAt(s[1..], k - 1))[1..] == RemoveAt(s[1..], k - 1);
    } else {
      assert RemoveAt(s, 0) == s[1..];
    }
  }

  /** Taking the first element off one side and an equal element off the other keeps a permutation. */
  lemma TailOfPermutation(a: seq<int>, b: seq<int>, k: nat)
    requires a != [] && multiset(a) == multiset(b) && k < |b| && b[k] == a[0]
    ensures multiset(a[1..]) == multiset(RemoveAt(b, k))
  {
    RemoveAtMultiset(b, k);
    assert a == [a[0]] + a[1..];
    assert multiset(a) == multiset{a[0]} + multiset(a[1..]);
  }

  /** The sum does not depend on the order of the numbers. */
  lemma {:induction false} SumPermutation(a: seq<int>, b: seq<int>)
    requires multiset(a) == multiset(b)
    ensures Sum(a) == Sum(b)
    decreases |a|
  {
    if a == [] {
      assert |b| == 0 by { assert |multiset(b)| == 0; }
    } else {
      assert a[0] in multiset(b);
      var k :| 0 <= k < |b| && b[k] == a[0];
      SumRemoveAt(b, k);
      TailOfPermutation(a, b, k);
      SumPermutation(a[1..], RemoveAt(b, k));
    }
  }

  /** A count does not depend on the order of the numbers. */
  lemma {:induction false} CountPermutation(a: seq<int>, b: seq<int>, p: int -> bool)
    requires multiset(a) == multiset(b)
    ensures Count(a, p) == Count(b, p)
    decreases |a|
  {
    if a == [] {
      assert |b| == 0 by { assert |multiset(b)| == 0; }
    } else {
      assert a[0] in multiset(b);
      var k :| 0 <= k < |b| && b[k] == a[0];
      CountRemoveAt(b, k, p);
      TailOfPermutation(a, b, k);
      CountPermutation(a[1..], RemoveAt(b, k), p);
    }
  }

  lemma {:induction false} CountBound(s: seq<int>, p: int -> bool)
    ensures Count(s, p) <= |s|
    ensures Count(s, p) == |s| <==> forall i :: 0 <= i < |s| ==> p(s[i])
    ensures Count(s, p) == 0 <==> forall i :: 0 <= i < |s| ==> !p(s[i])
  {
    if s != [] {
      CountBound(s[1..], p);
      assert forall i :: 1 <= i < |s| ==> s[i] == s[1..][i - 1];
    }
  }
}

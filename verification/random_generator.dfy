/**
 * RandomGenerator (services/random_generator.py): rejection sampling of
 * lottery combinations. A raw draw is six distinct numbers of 1..45 from the
 * system's cryptographic source; it is sorted and kept unless it matches one
 * of five "extreme" patterns, otherwise another draw is taken.
 *
 * The random source is not modelled: the draws arrive as an input sequence,
 * the part of the endless random stream that the loop gets to see.
 */
module RandomGenerator {
  import opened Errors
  import opened Combos

  /** `n % 2 == 1` in Python; Dafny's `%` agrees for a positive divisor. */
  predicate IsOdd(n: int) { n % 2 == 1 }

  function Within(lo: int, hi: int): int -> bool
  {
    x => lo <= x <= hi
  }

  /** How many of the numbers lie in lo..hi. */
  function BucketCount(s: seq<int>, lo: int, hi: int): nat
  {
    Count(s, Within(lo, hi))
  }

  /** The five fixed number bands used by the concentration rule. */
  const Buckets: seq<(int, int)> := [(1, 10), (11, 20), (21, 30), (31, 40), (41, 45)]

  const RunThreshold: int := 5
  const MinSum: int := 80
  const MaxSum: int := 200

  /** Gaps a..a+3 of the sorted numbers are all 1: five numbers in a row. */
  predicate UnitGapsFrom(s: seq<int>, a: int)
    requires 0 <= a && a + 4 < |s|
  {
    forall j :: a <= j < a + 4 ==> s[j + 1] - s[j] == 1
  }

  /** A run of five consecutive values ends at or before gap `i - 1`. */
  predicate RunWithin(s: seq<int>, i: int)
    requires i < |s|
  {
    exists a :: 0 <= a && a + 4 <= i && UnitGapsFrom(s, a)
  }

  lemma RunWithinStep(s: seq<int>, i: int)
    requires 0 <= i && i + 1 < |s|
    ensures RunWithin(s, i + 1) <==> RunWithin(s, i) || (i >= 3 && UnitGapsFrom(s, i - 3))
  {
    if RunWithin(s, i + 1) && !RunWithin(s, i) {
      var a :| 0 <= a && a + 4 <= i + 1 && UnitGapsFrom(s, a);
      assert a == i - 3;
    }
  }

  /** Rule 1: the sorted numbers contain five or more consecutive integers. */
  predicate LongRun(sorted: seq<int>)
    requires |sorted| == 6
  {
    RunWithin(sorted, 5)
  }

  /** Rule 2: all five gaps are equal and larger than one. */
  predicate EqualWideGaps(sorted: seq<int>)
    requires |sorted| == 6
  {
    && (forall i :: 0 <= i < 5 ==> sorted[i + 1] - sorted[i] == sorted[1] - sorted[0])
    && sorted[1] - sorted[0] > 1
  }

  /** Rule 3: the sum is below 80 or above 200. */
  predicate ExtremeSum(combination: seq<int>)
  {
    Sum(combination) < MinSum || Sum(combination) > MaxSum
  }

  /** Rule 4: all numbers odd or all even (for six numbers). */
  predicate SingleParity(combination: seq<int>)
  {
    Count(combination, IsOdd) == 0 || Count(combination, IsOdd) == 6
  }

  /** Rule 5: five or more of the numbers fall into one band. */
  predicate Concentrated(combination: seq<int>)
  {
    exists b :: 0 <= b < |Buckets| && BucketCount(combination, Buckets[b].0, Buckets[b].1) >= 5
  }

  /** A combination is extreme iff any of the five rules holds. */
  predicate Extreme(combination: seq<int>)
    requires |combination| == 6
  {
    var sorted := SortAsc(combination);
    LongRun(sorted) || EqualWideGaps(sorted) || ExtremeSum(combination)
    || SingleParity(combination) || Concentrated(combination)
  }

  function Max(a: int, b: int): int { if a < b then b else a }

  /** Python's `max(values)` of a non-empty list. */
  function MaxOf(values: seq<int>): (m: int)
    requires values != []
    ensures m in values && forall i :: 0 <= i < |values| ==> values[i] <= m
  {
    if |values| == 1 then values[0] else Max(values[0], MaxOf(values[1..]))
  }

  /** `len(set(gaps)) == 1`: the gap list holds a single distinct value. */
  lemma SingleValueSet(gaps: seq<int>)
    requires gaps != []
    ensures |set g | g in gaps| == 1 <==> forall i :: 0 <= i < |gaps| ==> gaps[i] == gaps[0]
  {
    var vs := set g | g in gaps;
    assert gaps[0] in vs;
    if forall i :: 0 <= i < |gaps| ==> gaps[i] == gaps[0] {
      assert vs == {gaps[0]};
    } else {
      var k :| 0 <= k < |gaps| && gaps[k] != gaps[0];
      assert {gaps[0], gaps[k]} <= vs;
      assert |{gaps[0], gaps[k]}| == 2;
      assert |vs| >= 2 by {
        var two := {gaps[0], gaps[k]};
        assert |vs| == |two| + |vs - two|;
      }
    }
  }

  /**
   * The run-counting pass of `is_extreme_pattern`: one sweep over the gaps
   * of the sorted numbers, counting unit gaps in a row and keeping the
   * longest run seen (a run of k unit gaps is k + 1 consecutive numbers).
   */
  method MaxConsecutive(sorted: seq<int>) returns (maxConsecutive: int)
    requires |sorted| == 6
    ensures maxConsecutive >= RunThreshold <==> LongRun(sorted)
  {
    var consecutiveCount := 0;
    maxConsecutive := 0;
    for i := 0 to 5
      invariant Scanned(sorted, i, consecutiveCount, maxConsecutive)
    {
      ScannedStep(sorted, i, consecutiveCount, maxConsecutive);
      if sorted[i + 1] - sorted[i] == 1 {
        consecutiveCount := consecutiveCount + 1;
        maxConsecutive := Max(maxConsecutive, consecutiveCount + 1);
      } else {
        consecutiveCount := 0;
      }
    }
  }

  /**
   * After the gaps before `i`: the current run is the last `count` gaps,
   * all 1 and preceded by a wider one, the longest run seen is at least the
   * current one, and it reaches five numbers exactly when such a run ends
   * before gap `i`.
   */
  ghost predicate Scanned(sorted: seq<int>, i: int, count: int, best: int)
    requires |sorted| == 6 && 0 <= i <= 5
  {
    && 0 <= count <= i
    && (forall j :: i - count <= j < i ==> sorted[j + 1] - sorted[j] == 1)
    && (count < i ==> sorted[i - count] - sorted[i - count - 1] != 1)
    && (count > 0 ==> best >= count + 1)
    && (best >= RunThreshold <==> RunWithin(sorted, i))
  }

  /** One more gap: a unit gap extends the run, a wider one ends it. */
  lemma ScannedStep(sorted: seq<int>, i: int, count: int, best: int)
    requires |sorted| == 6 && 0 <= i < 5 && Scanned(sorted, i, count, best)
    ensures var unit := sorted[i + 1] - sorted[i] == 1;
      Scanned(sorted, i + 1, if unit then count + 1 else 0, if unit then Max(best, count + 2) else best)
  {
    RunWithinStep(sorted, i);
    if sorted[i + 1] - sorted[i] == 1 {
      RunEndsAt(sorted, i, count);
    }
  }

  /** With a unit gap at `i` after `count` unit gaps that follow a wider one, five in a row end at `i` exactly when `count` is at least 3. */
  lemma RunEndsAt(sorted: seq<int>, i: int, count: int)
    requires |sorted| == 6 && 0 <= count <= i < 5
    requires forall j :: i - count <= j < i ==> sorted[j + 1] - sorted[j] == 1
    requires count < i ==> sorted[i - count] - sorted[i - count - 1] != 1
    requires sorted[i + 1] - sorted[i] == 1
    ensures i >= 3 && UnitGapsFrom(sorted, i - 3) <==> count >= 3
  {
  }

  /**
   * `is_extreme_pattern`: sorts a copy, counts the longest run of unit gaps
   * in one pass, then checks the remaining four rules in order.
   */
  method IsExtremePattern(combination: seq<int>) returns (extreme: bool)
    requires |combination| == 6
    ensures extreme == Extreme(combination)
  {
    var sorted := SortAsc(combination);

    // 1. five or more consecutive numbers
    var maxConsecutive := MaxConsecutive(sorted);
    if maxConsecutive >= RunThreshold {
      return true;
    }

    // 2. equal gaps wider than one
    var sameGap := SameWideGap(sorted);
    if sameGap {
      return true;
    }

    // 3. sum out of bounds
    var totalSum := Sum(combination);
    if totalSum < MinSum || totalSum > MaxSum {
      assert ExtremeSum(combination);
      return true;
    }

    // 4. single parity
    var oddCount := Count(combination, IsOdd);
    if oddCount == 0 || oddCount == 6 {
      assert SingleParity(combination);
      return true;
    }

    // 5. band concentration
    var maxRange := MaxBandCount(combination);
    if maxRange >= 5 {
      return true;
    }
    assert !ExtremeSum(combination) && !SingleParity(combination);
    return false;
  }

  /** Rule 2 as written: the set of the five gaps has one element, and the first gap is above one. */
  method SameWideGap(sorted: seq<int>) returns (sameGap: bool)
    requires |sorted| == 6
    ensures sameGap == EqualWideGaps(sorted)
  {
    var gaps := seq(5, i requires 0 <= i < 5 => sorted[i + 1] - sorted[i]);
    SingleValueSet(gaps);
    assert forall i :: 0 <= i < 5 ==> gaps[i] == sorted[i + 1] - sorted[i];
    sameGap := |set g | g in gaps| == 1 && gaps[0] > 1;
  }

  /** Rule 5 as written: the largest of the five band counts. */
  method MaxBandCount(combination: seq<int>) returns (maxRange: int)
    ensures maxRange >= 5 <==> Concentrated(combination)
  {
    var ranges := seq(|Buckets|, b requires 0 <= b < |Buckets| => BucketCount(combination, Buckets[b].0, Buckets[b].1));
    maxRange := MaxOf(ranges);
    if Concentrated(combination) {
      var b :| 0 <= b < |Buckets| && BucketCount(combination, Buckets[b].0, Buckets[b].1) >= 5;
      assert ranges[b] >= 5;
    }
  }

  /** The verdict depends only on which numbers occur, not their order. */
  lemma ExtremeOrderIndependent(a: seq<int>, b: seq<int>)
    requires |a| == 6 && multiset(a) == multiset(b)
    ensures |b| == 6 && Extreme(a) == Extreme(b)
  {
    SameLength(a, b);
    SortAscOfPermutation(a, b);
    SumPermutation(a, b);
    CountPermutation(a, b, IsOdd);
    forall k | 0 <= k < |Buckets|
      ensures BucketCount(a, Buckets[k].0, Buckets[k].1) == BucketCount(b, Buckets[k].0, Buckets[k].1)
    {
      CountPermutation(a, b, Within(Buckets[k].0, Buckets[k].1));
    }
  }

  /**
   * The value `generate_combination` returns when its random source yields
   * `draws`: the first draw that is not extreme, sorted. `None` means every
   * draw of the prefix was extreme, so the endless loop has not returned yet.
   */
  function FirstAcceptable(draws: seq<seq<int>>): Option<seq<int>>
    requires AllDraws(draws)
  {
    if draws == [] then None
    else if !Extreme(draws[0]) then Some(SortAsc(draws[0]))
    else FirstAcceptable(draws[1..])
  }

  /** What comes back is a valid, strictly ascending, non-extreme combination. */
  lemma {:induction false} FirstAcceptableValid(draws: seq<seq<int>>)
    requires AllDraws(draws)
    ensures var r := FirstAcceptable(draws);
      r.Some? ==> IsCombination(r.value) && StrictlyAscending(r.value) && !Extreme(r.value)
  {
    if draws != [] {
      if !Extreme(draws[0]) {
        SortAscOfDraw(draws[0]);
        SortAscPermutes(draws[0]);
        ExtremeOrderIndependent(draws[0], SortAsc(draws[0]));
      } else {
        FirstAcceptableValid(draws[1..]);
      }
    }
  }

  /** `None` comes back exactly when every draw was extreme. */
  lemma {:induction false} FirstAcceptableNone(draws: seq<seq<int>>)
    requires AllDraws(draws)
    ensures FirstAcceptable(draws).None? <==> forall i :: 0 <= i < |draws| ==> Extreme(draws[i])
  {
    if draws != [] && Extreme(draws[0]) {
      FirstAcceptableNone(draws[1..]);
      assert forall i :: 1 <= i < |draws| ==> draws[i] == draws[1..][i - 1];
    }
  }

  /** When draw `i` is the first that is not extreme, the result is that draw, sorted. */
  lemma {:induction false} FirstAcceptableIsFirst(draws: seq<seq<int>>, i: nat)
    requires AllDraws(draws) && i < |draws|
    requires !Extreme(draws[i]) && forall j :: 0 <= j < i ==> Extreme(draws[j])
    ensures FirstAcceptable(draws) == Some(SortAsc(draws[i]))
  {
    if i > 0 {
      var rest := draws[1..];
      assert forall j :: 0 <= j < i - 1 ==> rest[j] == draws[j + 1];
      FirstAcceptableIsFirst(rest, i - 1);
    }
  }

  /**
   * `generate_combination`: take draws until one, once sorted, is not
   * extreme, and return it.
   */
  method GenerateCombination(draws: seq<seq<int>>) returns (r: Option<seq<int>>)
    requires AllDraws(draws)
    ensures r == FirstAcceptable(draws)
  {
    var i := 0;
    while i < |draws|
      invariant 0 <= i <= |draws|
      invariant FirstAcceptable(draws[i..]) == FirstAcceptable(draws)
    {
      var combination := draws[i];
      combination := SortAsc(combination);
      SortAscPermutes(draws[i]);
      ExtremeOrderIndependent(draws[i], combination);
      var extreme := IsExtremePattern(combination);
      assert draws[i..][1..] == draws[i + 1..];
      if !extreme {
        return Some(combination);
      }
      i := i + 1;
    }
    return None;
  }

  // Examples of each rule. The order-free rules are settled first; the
  // sorted form of each (already ascending) example is supplied last.

  /** One non-unit gap among gaps 1..3 breaks both five-number windows. */
  lemma NoRunAcross(s: seq<int>, k: int)
    requires |s| == 6 && 1 <= k <= 3 && s[k + 1] - s[k] != 1
    ensures !LongRun(s)
  {
  }

  /** Gaps that differ, or a first gap of at most 1, rule out equal wide gaps. */
  lemma NoEqualWideGaps(s: seq<int>, k: int)
    requires |s| == 6 && 0 <= k < 5
    requires s[k + 1] - s[k] != s[1] - s[0] || s[1] - s[0] <= 1
    ensures !EqualWideGaps(s)
  {
  }

  /** For numbers already in ascending order, the rules apply to them as given. */
  lemma ExtremeOfSorted(c: seq<int>)
    requires |c| == 6 && c[0] <= c[1] <= c[2] <= c[3] <= c[4] <= c[5]
    ensures Extreme(c) <==> LongRun(c) || EqualWideGaps(c) || ExtremeSum(c) || SingleParity(c) || Concentrated(c)
  {
    assert Sorted(c) by {
      forall i, j | 0 <= i < j < 6 ensures c[i] <= c[j] {
        AscendingStep(c, i, j);
      }
    }
    SortAscOfSorted(c);
  }

  lemma {:induction false} AscendingStep(c: seq<int>, i: int, j: int)
    requires |c| == 6 && c[0] <= c[1] <= c[2] <= c[3] <= c[4] <= c[5]
    requires 0 <= i <= j < 6
    ensures c[i] <= c[j]
    decreases j - i
  {
    if i < j {
      AscendingStep(c, i + 1, j);
    }
  }

  /** Five consecutive numbers at the start: [1, 2, 3, 4, 5, 10]. */
  lemma RunAtStartExample()
    ensures Extreme([1, 2, 3, 4, 5, 10])
  {
    var a := [1, 2, 3, 4, 5, 10];
    assert UnitGapsFrom(a, 0);
    ExtremeOfSorted(a);
  }

  /** Six consecutive numbers: [10, 11, 12, 13, 14, 15]. */
  lemma SixInARowExample()
    ensures Extreme([10, 11, 12, 13, 14, 15])
  {
    var a := [10, 11, 12, 13, 14, 15];
    assert UnitGapsFrom(a, 0);
    ExtremeOfSorted(a);
  }

  /** Equal gaps of 5: [5, 10, 15, 20, 25, 30]. */
  lemma EqualGapsExample()
    ensures Extreme([5, 10, 15, 20, 25, 30])
  {
    var a := [5, 10, 15, 20, 25, 30];
    assert EqualWideGaps(a);
    ExtremeOfSorted(a);
  }

  /** The lower sum bound is inclusive: a sum of exactly 80 passes. */
  lemma SumOf80Passes()
    ensures Sum([3, 8, 12, 16, 19, 22]) == 80 && !Extreme([3, 8, 12, 16, 19, 22])
  {
    var a := [3, 8, 12, 16, 19, 22];
    assert !ExtremeSum(a) && !SingleParity(a) && !Concentrated(a);
    NoRunAcross(a, 1);
    NoEqualWideGaps(a, 2);
    ExtremeOfSorted(a);
  }

  /** The upper sum bound is inclusive: a sum of exactly 200 passes. */
  lemma SumOf200Passes()
    ensures Sum([20, 28, 33, 37, 40, 42]) == 200 && !Extreme([20, 28, 33, 37, 40, 42])
  {
    var a := [20, 28, 33, 37, 40, 42];
    assert !ExtremeSum(a) && !SingleParity(a) && !Concentrated(a);
    NoRunAcross(a, 1);
    NoEqualWideGaps(a, 2);
    ExtremeOfSorted(a);
  }

  /** One below or above the bounds is rejected: sums of 79 and 201. */
  lemma SumOutsideBoundsRejected()
    ensures Sum([3, 8, 12, 16, 19, 21]) == 79 && Extreme([3, 8, 12, 16, 19, 21])
    ensures Sum([20, 28, 33, 37, 40, 43]) == 201 && Extreme([20, 28, 33, 37, 40, 43])
  {
    assert ExtremeSum([3, 8, 12, 16, 19, 21]) && ExtremeSum([20, 28, 33, 37, 40, 43]);
  }

  /** All even: [2, 14, 22, 30, 36, 44]. */
  lemma ParityExample()
    ensures Extreme([2, 14, 22, 30, 36, 44])
  {
    assert SingleParity([2, 14, 22, 30, 36, 44]);
  }

  /** Five numbers in 21..30: [1, 21, 23, 26, 28, 30]. */
  lemma BucketExample()
    ensures Extreme([1, 21, 23, 26, 28, 30])
  {
    assert BucketCount([1, 21, 23, 26, 28, 30], Buckets[2].0, Buckets[2].1) == 5;
  }

  /** No rule fires for the evenly spread [7, 14, 23, 28, 35, 42]. */
  lemma SpreadNotExtreme()
    ensures !Extreme([7, 14, 23, 28, 35, 42])
  {
    var a := [7, 14, 23, 28, 35, 42];
    assert !ExtremeSum(a) && !SingleParity(a) && !Concentrated(a);
    NoRunAcross(a, 1);
    NoEqualWideGaps(a, 2);
    ExtremeOfSorted(a);
  }

  /** Four consecutive numbers are not yet a run: [10, 11, 12, 13, 25, 40] passes. */
  lemma FourInARowNotExtreme()
    ensures !Extreme([10, 11, 12, 13, 25, 40])
  {
    var a := [10, 11, 12, 13, 25, 40];
    assert !ExtremeSum(a) && !SingleParity(a) && !Concentrated(a);
    NoRunAcross(a, 3);
    NoEqualWideGaps(a, 0);
    ExtremeOfSorted(a);
  }
}

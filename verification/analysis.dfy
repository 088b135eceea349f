/**
 * `AnalysisService` (services/analysis_service.py): statistics over past
 * draws, each draw given by its list of numbers. The analyzers count with
 * `Counter`, whose keys keep the order they were first seen in; the ratio
 * maps divide counts by the number of draws, and only those integer counts
 * are modelled here.
 */
module Analysis {
  import opened Errors
  import opened Combos
  import opened Text
  import opened Ranking

  /* ---------------- Counter ---------------- */

  /** A `Counter` of integers: its keys in insertion order, and their counts. */
  datatype Tally = Tally(keys: seq<int>, counts: map<int, int>)

  /** Every key once, and the key list and the count map agree. */
  ghost predicate WellFormed(t: Tally)
  {
    && Distinct(t.keys)
    && (forall i :: 0 <= i < |t.keys| ==> t.keys[i] in t.counts)
    && (forall k :: k in t.counts ==> k in t.keys)
  }

  const Empty: Tally := Tally([], map[])

  /** Counting one more `x`: its count goes up, and a new key is put last. */
  function Bump(t: Tally, x: int): Tally
  {
    if x in t.counts then Tally(t.keys, t.counts[x := t.counts[x] + 1])
    else Tally(t.keys + [x], t.counts[x := 1])
  }

  lemma BumpKeepsWellFormed(t: Tally, x: int)
    requires WellFormed(t)
    ensures WellFormed(Bump(t, x))
  {
    if x !in t.counts {
      var ks := t.keys + [x];
      forall i, j | 0 <= i < j < |ks| ensures ks[i] != ks[j] {
        if j == |ks| - 1 {
          assert ks[i] in t.keys;
        }
      }
    }
  }

  /** `Counter(xs)`. */
  function TallyOf(xs: seq<int>): (t: Tally)
    ensures WellFormed(t)
    decreases |xs|
  {
    if xs == [] then Empty
    else
      var init := xs[..|xs| - 1];
      var x := xs[|xs| - 1];
      assert xs == init + [x];
      var t := TallyOf(init);
      BumpKeepsWellFormed(t, x);
      Bump(t, x)
  }

  /** Exactly the values of `xs` are keys of `Counter(xs)`, each with its number of occurrences. */
  lemma {:induction false} TallyOfCounts(xs: seq<int>)
    ensures forall k :: k in TallyOf(xs).counts <==> k in xs
    ensures forall k :: k in TallyOf(xs).counts ==> TallyOf(xs).counts[k] == multiset(xs)[k]
    decreases |xs|
  {
    if xs != [] {
      var init := xs[..|xs| - 1];
      var x := xs[|xs| - 1];
      assert xs == init + [x];
      TallyOfCounts(init);
    }
  }

  lemma TallyOfSnoc(xs: seq<int>, x: int)
    ensures TallyOf(xs + [x]) == Bump(TallyOf(xs), x)
  {
    assert (xs + [x])[..|xs|] == xs;
  }

  /** The sum of the counts of `keys`. */
  function SumCounts(keys: seq<int>, counts: map<int, int>): int
    requires forall i :: 0 <= i < |keys| ==> keys[i] in counts
  {
    if keys == [] then 0 else counts[keys[0]] + SumCounts(keys[1..], counts)
  }

  /** The sum of all counts. */
  function Total(t: Tally): int
    requires WellFormed(t)
  {
    SumCounts(t.keys, t.counts)
  }

  lemma {:induction false} SumCountsAppend(keys: seq<int>, y: int, counts: map<int, int>)
    requires y in counts && forall i :: 0 <= i < |keys| ==> keys[i] in counts
    ensures SumCounts(keys + [y], counts) == SumCounts(keys, counts) + counts[y]
    decreases |keys|
  {
    if keys == [] {
      assert [] + [y] == [y];
    } else {
      assert (keys + [y])[1..] == keys[1..] + [y];
      SumCountsAppend(keys[1..], y, counts);
    }
  }

  lemma {:induction false} SumCountsFrame(keys: seq<int>, counts: map<int, int>, x: int, v: int)
    requires x !in keys && forall i :: 0 <= i < |keys| ==> keys[i] in counts
    ensures SumCounts(keys, counts[x := v]) == SumCounts(keys, counts)
    decreases |keys|
  {
    if keys != [] {
      SumCountsFrame(keys[1..], counts, x, v);
    }
  }

  lemma {:induction false} SumCountsBump(keys: seq<int>, counts: map<int, int>, x: int)
    requires Distinct(keys) && x in keys && forall i :: 0 <= i < |keys| ==> keys[i] in counts
    ensures SumCounts(keys, counts[x := counts[x] + 1]) == SumCounts(keys, counts) + 1
    decreases |keys|
  {
    if keys[0] == x {
      assert x !in keys[1..] by {
        forall i | 1 <= i < |keys| ensures keys[i] != x {
          assert keys[0] != keys[i];
        }
      }
      SumCountsFrame(keys[1..], counts, x, counts[x] + 1);
    } else {
      assert x in keys[1..];
      SumCountsBump(keys[1..], counts, x);
    }
  }

  /** The counts of `Counter(xs)` add up to the length of `xs`. */
  lemma {:induction false} TotalOfTally(xs: seq<int>)
    ensures Total(TallyOf(xs)) == |xs|
    decreases |xs|
  {
    if xs != [] {
      var init := xs[..|xs| - 1];
      var x := xs[|xs| - 1];
      var t := TallyOf(init);
      assert xs == init + [x];
      assert TallyOf(xs) == Bump(t, x);
      TotalOfTally(init);
      if x in t.counts {
        SumCountsBump(t.keys, t.counts, x);
      } else {
        SumCountsFrame(t.keys, t.counts, x, 1);
        SumCountsAppend(t.keys, x, t.counts[x := 1]);
      }
    }
  }

  /** `dict(counter).items()`, in key order. */
  function Items(t: Tally): (items: seq<(int, int)>)
    requires WellFormed(t)
    ensures |items| == |t.keys|
    ensures forall i :: 0 <= i < |items| ==> items[i] == (t.keys[i], t.counts[t.keys[i]])
  {
    seq(|t.keys|, i requires 0 <= i < |t.keys| => (t.keys[i], t.counts[t.keys[i]]))
  }

  /* ---------------- analyze_number_frequency ---------------- */

  /** All numbers of all draws, draw after draw. */
  function Concat(draws: seq<seq<int>>): seq<int>
  {
    if draws == [] then [] else Concat(draws[..|draws| - 1]) + draws[|draws| - 1]
  }

  /** `Counter.update(numbers)`: one more count for each number, in order. */
  method Update(counter: Tally, numbers: seq<int>, ghost counted: seq<int>) returns (updated: Tally)
    requires counter == TallyOf(counted)
    ensures updated == TallyOf(counted + numbers)
  {
    updated := counter;
    assert counted + numbers[..0] == counted;
    for j := 0 to |numbers|
      invariant updated == TallyOf(counted + numbers[..j])
    {
      UpdateStep(counted, numbers, j);
      updated := Bump(updated, numbers[j]);
    }
    assert numbers[..|numbers|] == numbers;
  }

  lemma UpdateStep(counted: seq<int>, numbers: seq<int>, j: nat)
    requires j < |numbers|
    ensures TallyOf(counted + numbers[..j + 1]) == Bump(TallyOf(counted + numbers[..j]), numbers[j])
  {
    assert counted + numbers[..j + 1] == (counted + numbers[..j]) + [numbers[j]];
    TallyOfSnoc(counted + numbers[..j], numbers[j]);
  }

  /** `analyze_number_frequency`: `Counter.update` with every draw's numbers. */
  method AnalyzeNumberFrequency(draws: seq<seq<int>>) returns (frequency: Tally)
    ensures frequency == TallyOf(Concat(draws))
  {
    if draws == [] {
      return Empty;
    }
    frequency := Empty;
    for i := 0 to |draws|
      invariant frequency == TallyOf(Concat(draws[..i]))
    {
      assert draws[..i + 1][..i] == draws[..i];
      frequency := Update(frequency, draws[i], Concat(draws[..i]));
    }
    assert draws[..|draws|] == draws;
  }

  /** In how many of the draws `k` appears. */
  function DrawsWith(draws: seq<seq<int>>, k: int): nat
  {
    if draws == [] then 0 else DrawsWith(draws[..|draws| - 1], k) + (if k in draws[|draws| - 1] then 1 else 0)
  }

  lemma DistinctOccursOnce(d: seq<int>, k: int)
    requires Distinct(d)
    ensures multiset(d)[k] == if k in d then 1 else 0
  {
    if k in d {
      var i :| 0 <= i < |d| && d[i] == k;
      assert d == d[..i] + [k] + d[i + 1..];
      assert k !in d[..i] && k !in d[i + 1..] by {
        forall j | 0 <= j < |d| && j != i ensures d[j] != k {
        }
      }
    }
  }

  /**
   * For draws without repeated numbers the frequency of a number is the
   * number of draws it appeared in, and the numbers never drawn are absent.
   */
  lemma {:induction false} FrequencyCountsDraws(draws: seq<seq<int>>, k: int)
    requires forall i :: 0 <= i < |draws| ==> Distinct(draws[i])
    ensures var frequency := TallyOf(Concat(draws));
      && (k in frequency.counts <==> DrawsWith(draws, k) > 0)
      && (k in frequency.counts ==> frequency.counts[k] == DrawsWith(draws, k))
    decreases |draws|
  {
    if draws != [] {
      var init := draws[..|draws| - 1];
      FrequencyCountsDraws(init, k);
      TallyOfCounts(Concat(draws));
      TallyOfCounts(Concat(init));
      DistinctOccursOnce(draws[|draws| - 1], k);
      assert multiset(Concat(draws))[k] == multiset(Concat(init))[k] + multiset(draws[|draws| - 1])[k];
      assert k in Concat(draws) <==> multiset(Concat(draws))[k] > 0;
      assert k in Concat(init) <==> multiset(Concat(init))[k] > 0;
    }
  }

  lemma {:induction false} ConcatLength(draws: seq<seq<int>>)
    requires forall i :: 0 <= i < |draws| ==> |draws[i]| == ComboSize
    ensures |Concat(draws)| == ComboSize * |draws|
    decreases |draws|
  {
    if draws != [] {
      ConcatLength(draws[..|draws| - 1]);
    }
  }

  /** The frequencies of six-number draws add up to six per draw. */
  lemma FrequencyTotal(draws: seq<seq<int>>)
    requires forall i :: 0 <= i < |draws| ==> |draws[i]| == ComboSize
    ensures Total(TallyOf(Concat(draws))) == 6 * |draws|
  {
    ConcatLength(draws);
    TotalOfTally(Concat(draws));
  }

  /* ---------------- analyze_continuity ---------------- */

  /** `len(set(prev) & set(curr))` for every draw after the first. */
  function CommonCounts(draws: seq<seq<int>>): (r: seq<int>)
    ensures |r| == if |draws| < 2 then 0 else |draws| - 1
    ensures forall i :: 0 <= i < |r| ==> r[i] == |SetOf(draws[i]) * SetOf(draws[i + 1])|
  {
    if |draws| < 2 then []
    else seq(|draws| - 1, i requires 0 <= i < |draws| - 1 => |SetOf(draws[i]) * SetOf(draws[i + 1])|)
  }

  /** `analyze_continuity`: the common counts collected in a loop, then counted. */
  method AnalyzeContinuity(draws: seq<seq<int>>) returns (distribution: Tally)
    ensures distribution == if |draws| < 2 then Empty else TallyOf(CommonCounts(draws))
  {
    if |draws| < 2 {
      return Empty;
    }
    var continuityCounts: seq<int> := [];
    for i := 1 to |draws|
      invariant continuityCounts == CommonCounts(draws)[..i - 1]
    {
      var prevNumbers := SetOf(draws[i - 1]);
      var currNumbers := SetOf(draws[i]);
      var commonCount := |prevNumbers * currNumbers|;
      continuityCounts := continuityCounts + [commonCount];
    }
    assert continuityCounts == CommonCounts(draws);
    distribution := TallyOf(continuityCounts);
  }

  lemma CommonBound(a: seq<int>, b: seq<int>)
    requires |a| == ComboSize
    ensures 0 <= |SetOf(a) * SetOf(b)| <= 6
  {
    SetOfSizeBound(a);
    var common := SetOf(a) * SetOf(b);
    assert SetOf(a) == common + (SetOf(a) - common);
  }

  /**
   * One count per consecutive pair, so the counts add up to one less than
   * the number of draws; with six-number draws every key is in 0..6.
   */
  lemma ContinuityShape(draws: seq<seq<int>>)
    requires |draws| >= 2
    ensures Total(TallyOf(CommonCounts(draws))) == |draws| - 1
    ensures (forall i :: 0 <= i < |draws| ==> |draws[i]| == ComboSize) ==>
      forall k :: k in TallyOf(CommonCounts(draws)).counts ==> 0 <= k <= 6
  {
    TotalOfTally(CommonCounts(draws));
    if forall i :: 0 <= i < |draws| ==> |draws[i]| == ComboSize {
      var cs := CommonCounts(draws);
      TallyOfCounts(cs);
      forall k | k in TallyOf(cs).counts ensures 0 <= k <= 6 {
        var i :| 0 <= i < |cs| && cs[i] == k;
        CommonBound(draws[i], draws[i + 1]);
      }
    }
  }

  /* ---------------- analyze_number_parity ---------------- */

  predicate IsOdd(n: int)
  {
    n % 2 == 1
  }

  /** The number of odd numbers of every draw. */
  function OddCounts(draws: seq<seq<int>>): (r: seq<int>)
    ensures |r| == |draws|
    ensures forall i :: 0 <= i < |draws| ==> r[i] == Count(draws[i], IsOdd)
  {
    seq(|draws|, i requires 0 <= i < |draws| => Count(draws[i], IsOdd))
  }

  /** The key of the parity map, `odd_{k}_even_{6 - k}`. */
  function ParityKey(k: int): string
  {
    "odd_" + IntToString(k) + "_even_" + IntToString(6 - k)
  }

  /** The parity map's keys with the counts that are divided by the number of draws. */
  function ParityCounts(draws: seq<seq<int>>): (r: seq<(string, int)>)
  {
    if draws == [] then []
    else
      var t := TallyOf(OddCounts(draws));
      seq(|t.keys|, i requires 0 <= i < |t.keys| => (ParityKey(t.keys[i]), t.counts[t.keys[i]]))
  }

  /** `analyze_number_parity`: the odd count of each draw, counted, keyed by parity. */
  method AnalyzeNumberParity(draws: seq<seq<int>>) returns (numerators: seq<(string, int)>)
    ensures numerators == ParityCounts(draws)
  {
    if draws == [] {
      return [];
    }
    var oddCounts := CountOdds(draws);
    var parityDistribution := TallyOf(oddCounts);
    numerators := KeyByParity(parityDistribution);
  }

  /** The loop collecting the number of odd numbers of each draw. */
  method CountOdds(draws: seq<seq<int>>) returns (oddCounts: seq<int>)
    ensures oddCounts == OddCounts(draws)
  {
    oddCounts := [];
    for i := 0 to |draws|
      invariant oddCounts == OddCounts(draws)[..i]
    {
      var oddCount := Count(draws[i], IsOdd);
      oddCounts := oddCounts + [oddCount];
    }
  }

  /** The loop building the parity map: one entry per odd count, in first-seen order. */
  method KeyByParity(t: Tally) returns (numerators: seq<(string, int)>)
    requires forall i :: 0 <= i < |t.keys| ==> t.keys[i] in t.counts
    ensures |numerators| == |t.keys|
    ensures forall j :: 0 <= j < |t.keys| ==> numerators[j] == (ParityKey(t.keys[j]), t.counts[t.keys[j]])
  {
    numerators := [];
    for i := 0 to |t.keys|
      invariant |numerators| == i
      invariant forall j :: 0 <= j < i ==> numerators[j] == (ParityKey(t.keys[j]), t.counts[t.keys[j]])
    {
      var k := t.keys[i];
      numerators := numerators + [(ParityKey(k), t.counts[k])];
    }
  }

  lemma ParityKeyOfCount(draws: seq<seq<int>>, j: int)
    requires 0 <= j < |ParityCounts(draws)|
    ensures exists i :: 0 <= i < |draws| && ParityCounts(draws)[j].0 == ParityKey(Count(draws[i], IsOdd))
  {
    var t := TallyOf(OddCounts(draws));
    var k := t.keys[j];
    TallyOfCounts(OddCounts(draws));
    assert k in t.counts;
    var i :| 0 <= i < |draws| && OddCounts(draws)[i] == k;
  }

  function SumSnd(items: seq<(string, int)>): int
  {
    if items == [] then 0 else items[0].1 + SumSnd(items[1..])
  }

  lemma {:induction false} SumSndOfKeys(keys: seq<int>, counts: map<int, int>, items: seq<(string, int)>)
    requires forall i :: 0 <= i < |keys| ==> keys[i] in counts
    requires |items| == |keys| && forall i :: 0 <= i < |keys| ==> items[i].1 == counts[keys[i]]
    ensures SumSnd(items) == SumCounts(keys, counts)
    decreases |keys|
  {
    if keys != [] {
      SumSndOfKeys(keys[1..], counts, items[1..]);
    }
  }

  /**
   * Every key names the odd count of some draw, and the counts add up to
   * the number of draws, so the ratios add up to one.
   */
  lemma ParityTotal(draws: seq<seq<int>>)
    ensures SumSnd(ParityCounts(draws)) == |draws|
  {
    if draws != [] {
      var t := TallyOf(OddCounts(draws));
      SumSndOfKeys(t.keys, t.counts, ParityCounts(draws));
      TotalOfTally(OddCounts(draws));
    }
  }

  /* ---------------- analyze_sum_distribution ---------------- */

  /** `sum_ranges`, in order. */
  const SumRanges: seq<(string, int, int)> := [("low", 0, 100), ("medium", 101, 150), ("high", 151, 270)]

  /** The first of the ranges that holds `total`, if any. */
  function RangeOf(total: int): (r: Option<string>)
    ensures r == Some("low") <==> 0 <= total <= 100
    ensures r == Some("medium") <==> 101 <= total <= 150
    ensures r == Some("high") <==> 151 <= total <= 270
    ensures r.None? <==> total < 0 || total > 270
  {
    if 0 <= total <= 100 then Some("low")
    else if 101 <= total <= 150 then Some("medium")
    else if 151 <= total <= 270 then Some("high")
    else None
  }

  /** The number of draws whose sum falls in range `name`. */
  function RangeCount(draws: seq<seq<int>>, name: string): nat
  {
    if draws == [] then 0
    else RangeCount(draws[..|draws| - 1], name) + (if RangeOf(Sum(draws[|draws| - 1])) == Some(name) then 1 else 0)
  }

  /** The counts of the three ranges over `draws`. */
  function RangeCounts(draws: seq<seq<int>>): map<string, int>
  {
    map["low" := RangeCount(draws, "low"), "medium" := RangeCount(draws, "medium"), "high" := RangeCount(draws, "high")]
  }

  /**
   * `analyze_sum_distribution`: each draw is counted in the first range
   * that holds its sum; the loop over the ranges stops there.
   */
  method AnalyzeSumDistribution(draws: seq<seq<int>>) returns (rangeCounts: map<string, int>)
    ensures rangeCounts == if draws == [] then map[] else RangeCounts(draws)
  {
    if draws == [] {
      return map[];
    }
    rangeCounts := map["low" := 0, "medium" := 0, "high" := 0];
    for i := 0 to |draws|
      invariant rangeCounts == RangeCounts(draws[..i])
    {
      assert draws[..i + 1][..i] == draws[..i];
      var totalSum := Sum(draws[i]);
      RangeCountsSnoc(draws, i);
      assert SumRanges[0] == ("low", 0, 100) && SumRanges[1] == ("medium", 101, 150) && SumRanges[2] == ("high", 151, 270);
      var j := 0;
      while j < |SumRanges|
        invariant 0 <= j <= |SumRanges|
        invariant forall k :: 0 <= k < j ==> !(SumRanges[k].1 <= totalSum <= SumRanges[k].2)
        invariant rangeCounts == RangeCounts(draws[..i])
      {
        var (rangeName, minVal, maxVal) := SumRanges[j];
        if minVal <= totalSum <= maxVal {
          assert RangeOf(totalSum) == Some(rangeName);
          rangeCounts := rangeCounts[rangeName := rangeCounts[rangeName] + 1];
          assert rangeCounts == RangeCounts(draws[..i + 1]);
          break;
        }
        j := j + 1;
      }
      assert j == |SumRanges| ==> RangeOf(totalSum).None?;
    }
    assert draws[..|draws|] == draws;
  }

  lemma RangeCountsSnoc(draws: seq<seq<int>>, i: nat)
    requires i < |draws|
    ensures var before := RangeCounts(draws[..i]);
      RangeCounts(draws[..i + 1]) == match RangeOf(Sum(draws[i]))
        case None => before
        case Some(name) => before[name := before[name] + 1]
  {
    var p := draws[..i + 1];
    assert p[..|p| - 1] == draws[..i];
    assert p[|p| - 1] == draws[i];
  }

  lemma {:induction false} SumBounds(d: seq<int>)
    requires AllInRange(d, MinNumber, MaxNumber)
    ensures |d| * MinNumber <= Sum(d) <= |d| * MaxNumber
    decreases |d|
  {
    if d != [] {
      SumBounds(d[1..]);
    }
  }

  /**
   * A draw of six numbers in 1..45 sums to between 6 and 270, so every draw
   * is counted in exactly one range and the counts add up to the number of
   * draws.
   */
  lemma {:induction false} RangeCountsTotal(draws: seq<seq<int>>)
    requires forall i :: 0 <= i < |draws| ==> |draws[i]| == ComboSize && AllInRange(draws[i], MinNumber, MaxNumber)
    ensures RangeCount(draws, "low") + RangeCount(draws, "medium") + RangeCount(draws, "high") == |draws|
    decreases |draws|
  {
    if draws != [] {
      RangeCountsTotal(draws[..|draws| - 1]);
      SumBounds(draws[|draws| - 1]);
    }
  }

  /* ---------------- get_comprehensive_analysis ---------------- */

  /** The result of `get_comprehensive_analysis`, with counts in place of the ratio maps. */
  datatype Report = Report(
    numberFrequency: Tally,
    continuityDistribution: Tally,
    parityDistribution: seq<(string, int)>,
    sumDistribution: map<string, int>,
    hotNumbers: seq<int>,
    coldNumbers: seq<int>,
    totalDraws: int)

  const NoDataMessage: string := "분석할 데이터가 없습니다"

  /** The numbers of (number, count) pairs. */
  function Firsts(items: seq<(int, int)>): (r: seq<int>)
    ensures |r| == |items| && forall i :: 0 <= i < |items| ==> r[i] == items[i].0
  {
    seq(|items|, i requires 0 <= i < |items| => items[i].0)
  }

  /** `items[:10]`. */
  function Head10<T>(items: seq<T>): (r: seq<T>)
    ensures |r| == if |items| < 10 then |items| else 10
  {
    if |items| <= 10 then items else items[..10]
  }

  /** `items[-10:]`. */
  function Last10<T>(items: seq<T>): (r: seq<T>)
    ensures |r| == if |items| < 10 then |items| else 10
  {
    if |items| <= 10 then items else items[|items| - 10..]
  }

  /** The frequency items, most frequent first, ties in the order the numbers were first seen. */
  function RankedNumbers(draws: seq<seq<int>>): seq<(int, int)>
  {
    SortDesc(Items(TallyOf(Concat(draws))))
  }

  /** What `get_comprehensive_analysis` returns or raises. */
  function Comprehensive(draws: seq<seq<int>>): Result<Report>
  {
    if draws == [] then Err(AnalysisError(NoDataMessage))
    else
      var ranked := RankedNumbers(draws);
      Ok(Report(
        TallyOf(Concat(draws)),
        if |draws| < 2 then Empty else TallyOf(CommonCounts(draws)),
        ParityCounts(draws),
        RangeCounts(draws),
        Firsts(Head10(ranked)),
        Firsts(Last10(ranked)),
        |draws|))
  }

  /** `get_comprehensive_analysis`: the four analyses, then the hot and cold numbers. */
  method GetComprehensiveAnalysis(draws: seq<seq<int>>) returns (r: Result<Report>)
    ensures r == Comprehensive(draws)
  {
    if draws == [] {
      return Err(AnalysisError(NoDataMessage));
    }
    var numberFrequency := AnalyzeNumberFrequency(draws);
    var continuityDistribution := AnalyzeContinuity(draws);
    var parityDistribution := AnalyzeNumberParity(draws);
    var sumDistribution := AnalyzeSumDistribution(draws);
    var sortedNumbers := SortDesc(Items(numberFrequency));
    var hotNumbers := Firsts(Head10(sortedNumbers));
    var coldNumbers := Firsts(Last10(sortedNumbers));
    r := Ok(Report(numberFrequency, continuityDistribution, parityDistribution, sumDistribution,
                   hotNumbers, coldNumbers, |draws|));
  }

  /** No draws is an error; otherwise the report counts every draw. */
  lemma ComprehensiveOutcome(draws: seq<seq<int>>)
    ensures Comprehensive(draws).Err? <==> draws == []
    ensures draws == [] ==> Comprehensive(draws).error == AnalysisError(NoDataMessage)
    ensures draws != [] ==> Comprehensive(draws).value.totalDraws == |draws|
  {
  }

  /** The hot and cold numbers of a report: the first and the last ten of the ranking. */
  lemma ReportRanking(draws: seq<seq<int>>)
    requires draws != []
    ensures Comprehensive(draws).Ok?
    ensures Comprehensive(draws).value.hotNumbers == Firsts(Head10(RankedNumbers(draws)))
    ensures Comprehensive(draws).value.coldNumbers == Firsts(Last10(RankedNumbers(draws)))
  {
  }

  /** The hot numbers: up to ten drawn numbers, each once, none less frequent than a number left out. */
  lemma HotNumbers(draws: seq<seq<int>>)
    requires draws != []
    ensures var freq := TallyOf(Concat(draws));
      var ranked := RankedNumbers(draws);
      var hot := Comprehensive(draws).value.hotNumbers;
      && |ranked| == |freq.keys|
      && |hot| == (if |ranked| < 10 then |ranked| else 10)
      && (forall i :: 0 <= i < |hot| ==> hot[i] in freq.counts)
      && Distinct(hot)
      && (forall i, j :: 0 <= i < |hot| <= j < |ranked| ==> freq.counts[hot[i]] >= ranked[j].1)
  {
    ReportRanking(draws);
    HeadOfRanking(TallyOf(Concat(draws)), RankedNumbers(draws));
  }

  lemma HeadOfRanking(freq: Tally, ranked: seq<(int, int)>)
    requires WellFormed(freq) && ranked == SortDesc(Items(freq))
    ensures var hot := Firsts(Head10(ranked));
      && |ranked| == |freq.keys|
      && |hot| == (if |ranked| < 10 then |ranked| else 10)
      && (forall i :: 0 <= i < |hot| ==> hot[i] in freq.counts)
      && Distinct(hot)
      && (forall i, j :: 0 <= i < |hot| <= j < |ranked| ==> freq.counts[hot[i]] >= ranked[j].1)
  {
    RankedItemsAreItems(freq, Items(freq), ranked);
    var hot := Firsts(Head10(ranked));
    assert forall i :: 0 <= i < |hot| ==> hot[i] == ranked[i].0;
  }

  /** The cold numbers: the last ten of the ranking, none more frequent than a number before them. */
  lemma ColdNumbers(draws: seq<seq<int>>)
    requires draws != []
    ensures var freq := TallyOf(Concat(draws));
      var ranked := RankedNumbers(draws);
      var cold := Comprehensive(draws).value.coldNumbers;
      && |cold| == (if |ranked| < 10 then |ranked| else 10)
      && (forall i :: 0 <= i < |cold| ==> cold[i] in freq.counts)
      && Distinct(cold)
      && (forall i, j :: 0 <= i < |ranked| - |cold| && 0 <= j < |cold| ==> ranked[i].1 >= freq.counts[cold[j]])
  {
    ReportRanking(draws);
    TailOfRanking(TallyOf(Concat(draws)), RankedNumbers(draws));
  }

  lemma TailOfRanking(freq: Tally, ranked: seq<(int, int)>)
    requires WellFormed(freq) && ranked == SortDesc(Items(freq))
    ensures var cold := Firsts(Last10(ranked));
      && |cold| == (if |ranked| < 10 then |ranked| else 10)
      && (forall i :: 0 <= i < |cold| ==> cold[i] in freq.counts)
      && Distinct(cold)
      && (forall i, j :: 0 <= i < |ranked| - |cold| && 0 <= j < |cold| ==> ranked[i].1 >= freq.counts[cold[j]])
  {
    RankedItemsAreItems(freq, Items(freq), ranked);
    var cold := Firsts(Last10(ranked));
    var off := |ranked| - |cold|;
    assert forall j :: 0 <= j < |cold| ==> cold[j] == ranked[off + j].0;
    forall i, j | 0 <= i < j < |cold| ensures cold[i] != cold[j] {
      assert ranked[off + i].0 != ranked[off + j].0;
    }
    forall i, j | 0 <= i < off && 0 <= j < |cold| ensures ranked[i].1 >= freq.counts[cold[j]] {
      assert freq.counts[cold[j]] == ranked[off + j].1;
    }
  }

  /** A sequence without repeats holds each value at most once. */
  lemma DistinctCountsOne<T>(s: seq<T>, x: T)
    requires forall i, j :: 0 <= i < j < |s| ==> s[i] != s[j]
    ensures multiset(s)[x] <= 1
  {
    if x in s {
      var i :| 0 <= i < |s| && s[i] == x;
      assert s == s[..i] + [x] + s[i + 1..];
      assert x !in s[..i] && x !in s[i + 1..] by {
        forall j | 0 <= j < |s| && j != i ensures s[j] != x {
        }
      }
    }
  }

  /** A value at two places is counted at least twice. */
  lemma TwiceCountsTwo<T>(s: seq<T>, i: nat, j: nat)
    requires i < j < |s| && s[i] == s[j]
    ensures multiset(s)[s[i]] >= 2
  {
    assert s == s[..j] + s[j..];
    assert s[i] in s[..j];
    assert s[j..][0] == s[j];
  }

  /**
   * The ranked items are the frequency items reordered: every one is a
   * (number, count) pair of the counter, and no number comes twice.
   */
  lemma RankedItemsAreItems(freq: Tally, items: seq<(int, int)>, ranked: seq<(int, int)>)
    requires WellFormed(freq) && items == Items(freq) && ranked == SortDesc(items)
    ensures |ranked| == |freq.keys|
    ensures forall i :: 0 <= i < |ranked| ==> ranked[i].0 in freq.counts && ranked[i].1 == freq.counts[ranked[i].0]
    ensures forall i, j :: 0 <= i < j < |ranked| ==> ranked[i].0 != ranked[j].0
  {
    forall i | 0 <= i < |ranked| ensures ranked[i].0 in freq.counts && ranked[i].1 == freq.counts[ranked[i].0] {
      assert ranked[i] in multiset(items);
      var k :| 0 <= k < |items| && items[k] == ranked[i];
    }
    assert forall i, j :: 0 <= i < j < |items| ==> items[i] != items[j] by {
      forall i, j | 0 <= i < j < |items| ensures items[i] != items[j] {
        assert items[i].0 == freq.keys[i] && items[j].0 == freq.keys[j];
      }
    }
    forall i, j | 0 <= i < j < |ranked| ensures ranked[i].0 != ranked[j].0 {
      if ranked[i].0 == ranked[j].0 {
        TwiceCountsTwo(ranked, i, j);
        DistinctCountsOne(items, ranked[i]);
      }
    }
  }

  /** Numbers that are equally frequent keep the order in which they were first drawn. */
  lemma TiesKeepFirstSeenOrder(draws: seq<seq<int>>, m: int)
    ensures WithCount(RankedNumbers(draws), m) == WithCount(Items(TallyOf(Concat(draws))), m)
  {
    SortDescStable(Items(TallyOf(Concat(draws))), m);
  }
}

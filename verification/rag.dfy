/**
 * The parsers and filters of `RAGService` (services/rag_service.py): the
 * check applied to each combination read from the model's JSON answer, the
 * plain-text fallback that reads combinations out of free text, and the
 * random generator used when everything else fails. The language model and
 * `random.sample` are not modelled; the samples are an input.
 */
module Rag {
  import opened Errors
  import opened Combos
  import opened Text

  /* ---------------- _validate_combination ---------------- */

  /** A value decoded by `json.loads`; floats and objects carry no payload, as they are always refused. */
  datatype Json = JNull | JBool(b: bool) | JInt(i: int) | JFloat | JString(s: string) | JArray(items: seq<Json>) | JObject

  /** `isinstance(n, int)` and the value Python compares: `bool` is a subclass of `int`. */
  function IntValue(v: Json): Option<int>
  {
    match v
    case JInt(i) => Some(i)
    case JBool(b) => Some(if b then 1 else 0)
    case _ => None
  }

  /** The values of a list whose items all pass `isinstance(n, int) and 1 <= n <= 45`. */
  predicate AllNumbersInRange(items: seq<Json>)
  {
    forall i :: 0 <= i < |items| ==> IntValue(items[i]).Some? && MinNumber <= IntValue(items[i]).value <= MaxNumber
  }

  function Values(items: seq<Json>): (vs: seq<int>)
    requires AllNumbersInRange(items)
    ensures |vs| == |items| && forall i :: 0 <= i < |items| ==> vs[i] == IntValue(items[i]).value
  {
    seq(|items|, i requires 0 <= i < |items| => IntValue(items[i]).value)
  }

  /**
   * `_validate_combination`: a list of six integers in 1..45, no two equal,
   * comes back sorted; anything else gives `None`.
   */
  function ValidateCombination(combo: Json): (r: Option<seq<int>>)
    ensures r.Some? <==>
      && combo.JArray? && |combo.items| == 6
      && AllNumbersInRange(combo.items)
      && Distinct(Values(combo.items))
    ensures r.Some? ==> r.value == SortAsc(Values(combo.items))
    ensures r.Some? ==> IsCombination(r.value) && StrictlyAscending(r.value)
  {
    if combo.JArray? && |combo.items| == 6 && AllNumbersInRange(combo.items) then
      var vs := Values(combo.items);
      DistinctIffSetSize(vs);
      if |SetOf(vs)| == 6 then
        SortAscOfDraw(vs);
        Some(SortAsc(vs))
      else None
    else None
  }

  /** A valid combination is accepted back as itself, in any order of its numbers. */
  lemma ValidateAcceptsDraws(vs: seq<int>)
    requires IsDraw(vs)
    ensures ValidateCombination(JArray(seq(|vs|, i requires 0 <= i < |vs| => JInt(vs[i])))) == Some(SortAsc(vs))
  {
    var items := seq(|vs|, i requires 0 <= i < |vs| => JInt(vs[i]));
    assert Values(items) == vs;
  }

  /* ---------------- _fallback_extraction ---------------- */

  /** `n.isdigit()` for an ASCII token. */
  predicate IsDigitToken(w: string)
  {
    w != [] && AllDigits(w)
  }

  /** `[int(n) for n in words if n.isdigit() and 1 <= int(n) <= 45]`. */
  function KeptNumbers(words: seq<string>): (r: seq<int>)
    ensures AllInRange(r, MinNumber, MaxNumber)
    ensures |r| <= |words|
  {
    if words == [] then []
    else
      var w := words[|words| - 1];
      KeptNumbers(words[..|words| - 1])
      + (if IsDigitToken(w) && MinNumber <= DigitsValue(w) <= MaxNumber then [DigitsValue(w)] else [])
  }

  /** Token `w` is all digits, spells `x`, and `x` is in 1..45. */
  predicate Spells(w: string, x: int)
  {
    IsDigitToken(w) && DigitsValue(w) == x && MinNumber <= x <= MaxNumber
  }

  /** A number is kept exactly when some token spells it in digits and it is in 1..45. */
  lemma {:induction false} KeptNumbersMembers(words: seq<string>, x: int)
    ensures x in KeptNumbers(words) <==> exists j :: 0 <= j < |words| && Spells(words[j], x)
    decreases |words|
  {
    if words != [] {
      var init := words[..|words| - 1];
      var w := words[|words| - 1];
      KeptNumbersMembers(init, x);
      assert x in KeptNumbers(words) <==> x in KeptNumbers(init) || Spells(w, x);
      SpelledByLast(words, init, w, x);
    }
  }

  /** Some token spells `x` iff one before the last does or the last one does. */
  lemma SpelledByLast(words: seq<string>, init: seq<string>, w: string, x: int)
    requires words != [] && init == words[..|words| - 1] && w == words[|words| - 1]
    ensures (exists j :: 0 <= j < |words| && Spells(words[j], x))
      <==> (exists j :: 0 <= j < |init| && Spells(init[j], x)) || Spells(w, x)
  {
    if exists j :: 0 <= j < |init| && Spells(init[j], x) {
      var j :| 0 <= j < |init| && Spells(init[j], x);
      assert words[j] == init[j];
    }
    if exists j :: 0 <= j < |words| && Spells(words[j], x) {
      var j :| 0 <= j < |words| && Spells(words[j], x);
      if j < |init| {
        assert init[j] == words[j];
      }
    }
  }

  /** The window of six numbers starting at `i`, sorted. */
  function Window(numbers: seq<int>, i: nat): seq<int>
    requires i + 6 <= |numbers|
  {
    SortAsc(numbers[i..i + 6])
  }

  /** The combinations from the first `n` windows: each window without a repeat, sorted. */
  function Windows(numbers: seq<int>, n: nat): (r: seq<seq<int>>)
    requires n + 5 <= |numbers|
    ensures |r| <= n
  {
    if n == 0 then []
    else
      var combo := Window(numbers, n - 1);
      Windows(numbers, n - 1) + (if |SetOf(combo)| == 6 then [combo] else [])
  }

  /** The combinations the numbers of one line yield: none when fewer than six. */
  function NumberCombos(numbers: seq<int>): seq<seq<int>>
  {
    if |numbers| >= 6 then Windows(numbers, |numbers| - 5) else []
  }

  /** The combinations one line yields. */
  function LineCombos(line: string): seq<seq<int>>
  {
    NumberCombos(KeptNumbers(Words(line)))
  }

  /** The combinations of the lines, line after line. */
  function Extracted(lines: seq<string>): seq<seq<int>>
  {
    if lines == [] then [] else Extracted(lines[..|lines| - 1]) + LineCombos(lines[|lines| - 1])
  }

  /** `_fallback_extraction`: every line, then every window of its numbers. */
  method FallbackExtraction(text: string) returns (combinations: seq<seq<int>>)
    ensures combinations == Extracted(SplitOn(text, '\n'))
  {
    combinations := [];
    var lines := SplitOn(text, '\n');
    for l := 0 to |lines|
      invariant combinations == Extracted(lines[..l])
    {
      var numbers := KeptNumbers(Words(lines[l]));
      var found := WindowCombos(numbers);
      ExtractedSnoc(lines, l);
      combinations := combinations + found;
    }
    assert lines[..|lines|] == lines;
  }

  lemma ExtractedSnoc(lines: seq<string>, l: nat)
    requires l < |lines|
    ensures Extracted(lines[..l + 1]) == Extracted(lines[..l]) + LineCombos(lines[l])
  {
    assert lines[..l + 1][..l] == lines[..l] && lines[..l + 1][l] == lines[l];
  }

  /** The body of the loop over lines: the windows of one line's numbers, when it has six or more. */
  method WindowCombos(numbers: seq<int>) returns (found: seq<seq<int>>)
    ensures found == NumberCombos(numbers)
  {
    found := [];
    if |numbers| >= 6 {
      for i := 0 to |numbers| - 5
        invariant found == Windows(numbers, i)
      {
        var combo := SortAsc(numbers[i..i + 6]);
        if |SetOf(combo)| == 6 {
          found := found + [combo];
        }
      }
    }
  }

  /** Every window the fallback keeps is a valid combination, ascending. */
  lemma {:induction false} WindowsAreCombinations(numbers: seq<int>, n: nat)
    requires n + 5 <= |numbers| && AllInRange(numbers, MinNumber, MaxNumber)
    ensures forall c :: c in Windows(numbers, n) ==> IsCombination(c) && StrictlyAscending(c)
    decreases n
  {
    if n > 0 {
      WindowsAreCombinations(numbers, n - 1);
      var combo := Window(numbers, n - 1);
      if |SetOf(combo)| == 6 {
        WindowIsCombination(numbers, n - 1);
        forall c | c in Windows(numbers, n) ensures IsCombination(c) && StrictlyAscending(c) {
          assert c in Windows(numbers, n - 1) || c == combo;
        }
      }
    }
  }

  /** A window with six different numbers, all in 1..45, is a valid combination, ascending. */
  lemma WindowIsCombination(numbers: seq<int>, i: nat)
    requires i + 6 <= |numbers| && AllInRange(numbers, MinNumber, MaxNumber)
    requires |SetOf(Window(numbers, i))| == 6
    ensures IsCombination(Window(numbers, i)) && StrictlyAscending(Window(numbers, i))
  {
    var w := numbers[i..i + 6];
    var combo := Window(numbers, i);
    SortAscPermutes(w);
    PermutationSameSet(w, combo);
    DistinctIffSetSize(w);
    assert IsDraw(w);
    SortAscOfDraw(w);
  }

  /** Every combination the fallback emits has six distinct numbers of 1..45, in ascending order. */
  lemma {:induction false} ExtractedAreCombinations(lines: seq<string>)
    ensures forall c :: c in Extracted(lines) ==> IsCombination(c) && StrictlyAscending(c)
    decreases |lines|
  {
    if lines != [] {
      var init := lines[..|lines| - 1];
      var last := lines[|lines| - 1];
      ExtractedAreCombinations(init);
      LineCombosAreCombinations(last);
      forall c | c in Extracted(lines) ensures IsCombination(c) && StrictlyAscending(c) {
        assert c in Extracted(init) || c in LineCombos(last);
      }
    }
  }

  lemma LineCombosAreCombinations(line: string)
    ensures forall c :: c in LineCombos(line) ==> IsCombination(c) && StrictlyAscending(c)
  {
    var numbers := KeptNumbers(Words(line));
    if |numbers| >= 6 {
      WindowsAreCombinations(numbers, |numbers| - 5);
    }
  }

  /**
   * A line gives at most one combination per window of six consecutive
   * kept numbers, none when it has fewer than six, and each one is such a
   * window sorted.
   */
  lemma {:induction false} LineCombosAreWindows(line: string)
    ensures var numbers := KeptNumbers(Words(line));
      && (|numbers| < 6 ==> LineCombos(line) == [])
      && (|numbers| >= 6 ==> |LineCombos(line)| <= |numbers| - 5)
      && (forall c :: c in LineCombos(line) ==> exists i :: 0 <= i && i + 6 <= |numbers| && c == Window(numbers, i))
  {
    var numbers := KeptNumbers(Words(line));
    if |numbers| >= 6 {
      WindowsFromWindows(numbers, |numbers| - 5);
    }
  }

  lemma {:induction false} WindowsFromWindows(numbers: seq<int>, n: nat)
    requires n + 5 <= |numbers|
    ensures forall c :: c in Windows(numbers, n) ==> exists i :: 0 <= i < n && c == Window(numbers, i)
    decreases n
  {
    if n > 0 {
      WindowsFromWindows(numbers, n - 1);
    }
  }

  /* ---------------- _random_combination_generator ---------------- */

  const MinSum: int := 90
  const MaxSum: int := 200

  /**
   * `_random_combination_generator`: `sample(k)` stands for the `k`-th
   * `random.sample(range(1, 46), 6)`. A sorted sample is kept when its sum
   * is in 90..200 and it is new; the loop stops at `numCombinations`
   * combinations or after `numCombinations * 5` attempts. `attempts` is the
   * count the service logs.
   */
  method RandomCombinationGenerator(numCombinations: int, sample: nat -> seq<int>) returns (combinations: seq<seq<int>>, attempts: int)
    ensures 0 <= attempts && combinations == Kept(sample, attempts)
    ensures |combinations| >= numCombinations || attempts >= numCombinations * 5
    ensures forall k :: 0 <= k < attempts ==> |Kept(sample, k)| < numCombinations && k < numCombinations * 5
    ensures attempts <= numCombinations * 5 || attempts == 0
    ensures |combinations| <= (if numCombinations < 0 then 0 else numCombinations)
    ensures |combinations| < numCombinations ==> attempts == numCombinations * 5
    ensures Generated(combinations, sample, attempts)
  {
    combinations := [];
    var maxAttempts := numCombinations * 5;
    attempts := 0;
    while |combinations| < numCombinations && attempts < maxAttempts
      invariant Attempted(combinations, sample, numCombinations, attempts)
      decreases maxAttempts - attempts
    {
      AttemptedStep(combinations, sample, numCombinations, attempts);
      var combination := SortAsc(sample(attempts));
      combinations := KeepIfPlausible(combinations, combination);
      attempts := attempts + 1;
    }
    KeptIsGenerated(sample, attempts);
  }

  /** What the attempt loop keeps: the combinations kept so far, and no earlier point at which it would have stopped. */
  ghost predicate Attempted(combinations: seq<seq<int>>, sample: nat -> seq<int>, numCombinations: int, attempts: int)
  {
    && 0 <= attempts && (attempts <= numCombinations * 5 || attempts == 0)
    && |combinations| <= (if numCombinations < 0 then 0 else numCombinations)
    && combinations == Kept(sample, attempts)
    && forall k :: 0 <= k < attempts ==> |Kept(sample, k)| < numCombinations && k < numCombinations * 5
  }

  /** One more attempt, taken because the loop has not stopped, keeps `Attempted`. */
  lemma AttemptedStep(combinations: seq<seq<int>>, sample: nat -> seq<int>, numCombinations: int, attempts: nat)
    requires Attempted(combinations, sample, numCombinations, attempts)
    requires |combinations| < numCombinations && attempts < numCombinations * 5
    ensures var c := SortAsc(sample(attempts));
      Attempted(if InSumRange(c) && c !in combinations then combinations + [c] else combinations,
                sample, numCombinations, attempts + 1)
  {
    KeptStep(sample, attempts);
  }

  /** The body of the attempt loop after the sample: skip an extreme sum, then append if new. */
  method KeepIfPlausible(combinations: seq<seq<int>>, combination: seq<int>) returns (kept: seq<seq<int>>)
    ensures kept == if InSumRange(combination) && combination !in combinations
      then combinations + [combination] else combinations
  {
    kept := combinations;
    var totalSum := Sum(combination);
    if totalSum < MinSum || totalSum > MaxSum {
      return;
    }
    if combination !in combinations {
      kept := combinations + [combination];
    }
  }

  /** The sum check of the attempt loop. */
  predicate InSumRange(c: seq<int>)
  {
    MinSum <= Sum(c) <= MaxSum
  }

  /** The sorted samples of the first `k` attempts, in order. */
  function Candidates(sample: nat -> seq<int>, k: nat): (cs: seq<seq<int>>)
    ensures |cs| == k
    ensures forall j :: 0 <= j < k ==> cs[j] == SortAsc(sample(j))
  {
    if k == 0 then [] else Candidates(sample, k - 1) + [SortAsc(sample(k - 1))]
  }

  /**
   * Keeping the candidates in turn: each is appended when its sum is in
   * 90..200 and it is not yet present.
   */
  function KeepAll(cs: seq<seq<int>>): (kept: seq<seq<int>>)
    ensures |kept| <= |cs|
  {
    if cs == [] then []
    else
      var earlier := KeepAll(cs[..|cs| - 1]);
      var c := cs[|cs| - 1];
      if InSumRange(c) && c !in earlier then earlier + [c] else earlier
  }

  /** The combinations kept after the first `k` attempts. */
  function Kept(sample: nat -> seq<int>, k: nat): seq<seq<int>>
  {
    KeepAll(Candidates(sample, k))
  }

  /** Attempt `k` appends its sorted sample when that is plausible and new; otherwise nothing changes. */
  lemma KeptStep(sample: nat -> seq<int>, k: nat)
    ensures var c := SortAsc(sample(k));
      Kept(sample, k + 1) == if InSumRange(c) && c !in Kept(sample, k) then Kept(sample, k) + [c] else Kept(sample, k)
  {
    assert Candidates(sample, k + 1) == Candidates(sample, k) + [SortAsc(sample(k))];
    KeepAllSnoc(Candidates(sample, k), SortAsc(sample(k)));
  }

  /** One more candidate is appended when it is plausible and new; otherwise nothing changes. */
  lemma KeepAllSnoc(cs: seq<seq<int>>, c: seq<int>)
    ensures KeepAll(cs + [c]) == if InSumRange(c) && c !in KeepAll(cs) then KeepAll(cs) + [c] else KeepAll(cs)
  {
    assert (cs + [c])[..|cs|] == cs;
  }

  /** Everything kept is a candidate with a sum in 90..200, and nothing is kept twice. */
  lemma {:induction false} KeepAllSound(cs: seq<seq<int>>)
    ensures Distinct(KeepAll(cs))
    ensures forall i :: 0 <= i < |KeepAll(cs)| ==> InSumRange(KeepAll(cs)[i]) && KeepAll(cs)[i] in cs
  {
    if cs != [] {
      var init := cs[..|cs| - 1];
      var c := cs[|cs| - 1];
      var earlier := KeepAll(init);
      KeepAllSound(init);
      assert cs == init + [c];
      KeepAllSnoc(init, c);
      SoundAppend(earlier, c, init, cs);
    }
  }

  lemma SoundAppend(earlier: seq<seq<int>>, c: seq<int>, init: seq<seq<int>>, cs: seq<seq<int>>)
    requires cs == init + [c]
    requires Distinct(earlier)
    requires forall i :: 0 <= i < |earlier| ==> InSumRange(earlier[i]) && earlier[i] in init
    ensures var more := if InSumRange(c) && c !in earlier then earlier + [c] else earlier;
      Distinct(more) && forall i :: 0 <= i < |more| ==> InSumRange(more[i]) && more[i] in cs
  {
    var more := if InSumRange(c) && c !in earlier then earlier + [c] else earlier;
    forall i | 0 <= i < |more| ensures InSumRange(more[i]) && more[i] in cs {
      if i < |earlier| {
        assert more[i] == earlier[i];
        var j :| 0 <= j < |init| && init[j] == earlier[i];
        assert cs[j] == init[j];
      } else {
        assert cs[|init|] == c;
      }
    }
    forall i, j | 0 <= i < j < |more| ensures more[i] != more[j] {
      assert more[i] == earlier[i];
      if j < |earlier| {
        assert more[j] == earlier[j];
      }
    }
  }

  /** Nothing plausible is dropped: every candidate with a sum in 90..200 is kept. */
  lemma {:induction false} KeepAllComplete(cs: seq<seq<int>>)
    ensures forall j :: 0 <= j < |cs| && InSumRange(cs[j]) ==> cs[j] in KeepAll(cs)
  {
    if cs != [] {
      var init := cs[..|cs| - 1];
      var c := cs[|cs| - 1];
      KeepAllComplete(init);
      assert cs == init + [c];
      KeepAllSnoc(init, c);
      var more := KeepAll(cs);
      assert KeepAll(init) <= more;
      forall j | 0 <= j < |cs| && InSumRange(cs[j]) ensures cs[j] in more {
        if j < |init| {
          assert cs[j] == init[j];
          var m :| 0 <= m < |KeepAll(init)| && KeepAll(init)[m] == cs[j];
          assert more[m] == cs[j];
        } else if c !in KeepAll(init) {
          assert more[|KeepAll(init)|] == c;
        } else {
          var m :| 0 <= m < |KeepAll(init)| && KeepAll(init)[m] == c;
          assert more[m] == c;
        }
      }
    }
  }

  /** Later candidates only append: what the first `j` candidates kept stays in place, in order. */
  lemma {:induction false} KeepAllGrows(cs: seq<seq<int>>, j: nat)
    requires j <= |cs|
    ensures KeepAll(cs[..j]) <= KeepAll(cs)
    decreases |cs| - j
  {
    if j < |cs| {
      var init := cs[..|cs| - 1];
      assert init[..j] == cs[..j];
      KeepAllGrows(init, j);
      assert cs == init + [cs[|cs| - 1]];
      KeepAllSnoc(init, cs[|cs| - 1]);
      PrefixTrans(KeepAll(cs[..j]), KeepAll(init), KeepAll(cs));
    } else {
      assert cs[..j] == cs;
    }
  }

  lemma PrefixTrans(a: seq<seq<int>>, b: seq<seq<int>>, c: seq<seq<int>>)
    requires a <= b && b <= c
    ensures a <= c
  {
    assert c[..|a|] == b[..|a|];
  }

  /**
   * What the loop keeps: no combination twice, each a sorted sample among
   * the first `attempts` with a sum in 90..200, and each a valid combination
   * when every sample is a draw.
   */
  ghost predicate Generated(combinations: seq<seq<int>>, sample: nat -> seq<int>, attempts: int)
  {
    && Distinct(combinations)
    && (forall i :: 0 <= i < |combinations| ==> Plausible(combinations[i], sample, attempts))
    && ((forall k :: IsDraw(sample(k))) ==> forall i :: 0 <= i < |combinations| ==> IsCombination(combinations[i]))
  }

  /** A combination the loop may have kept: a sum in 90..200 and the sorted sample of one of the first `attempts` attempts. */
  ghost predicate Plausible(c: seq<int>, sample: nat -> seq<int>, attempts: int)
  {
    InSumRange(c) && exists k :: 0 <= k < attempts && c == SortAsc(sample(k))
  }

  /** The kept combinations are new, plausible, and valid whenever the samples are draws. */
  lemma KeptIsGenerated(sample: nat -> seq<int>, k: nat)
    ensures Generated(Kept(sample, k), sample, k)
  {
    var cs := Candidates(sample, k);
    var kept := KeepAll(cs);
    KeepAllSound(cs);
    forall i | 0 <= i < |kept| ensures Plausible(kept[i], sample, k) {
      var j :| 0 <= j < |cs| && cs[j] == kept[i];
      assert kept[i] == SortAsc(sample(j));
    }
    if forall m :: IsDraw(sample(m)) {
      forall i | 0 <= i < |kept| ensures IsCombination(kept[i]) {
        var j :| 0 <= j < |cs| && cs[j] == kept[i];
        SortAscOfDraw(sample(j));
      }
    }
  }

  /** Every sorted sample of the first `k` attempts with a sum in 90..200 is among the kept combinations. */
  lemma KeptHasEveryPlausible(sample: nat -> seq<int>, k: nat)
    ensures forall j :: 0 <= j < k && InSumRange(SortAsc(sample(j))) ==> SortAsc(sample(j)) in Kept(sample, k)
  {
    KeepAllComplete(Candidates(sample, k));
  }

  /** The combinations kept after `j` attempts are a prefix of those kept after `k`. */
  lemma KeptGrows(sample: nat -> seq<int>, j: nat, k: nat)
    requires j <= k
    ensures Kept(sample, j) <= Kept(sample, k)
  {
    var cs := Candidates(sample, k);
    assert cs[..j] == Candidates(sample, j);
    KeepAllGrows(cs, j);
  }
}

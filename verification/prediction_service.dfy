/**
 * SimplifiedPredictionService (services/simplified_prediction_service.py):
 * produces a batch of combinations, each accepted only when the duplicate
 * checker does not report it as a past winning combination and it is not
 * already in the batch, with a bounded number of retries per combination.
 *
 * Everything outside the service arrives through an `Oracle`, indexed by the
 * number of duplicate checks made so far: the combination that
 * `generate_combination` returns on attempt `k`, the clock reading and the
 * outcome of the data service at that check. Exactly one `is_duplicate` call
 * is made per attempt, so the checker's cache after `k` checks is
 * `StateAfter(o, s0, k)` and its verdicts are `DupStream(o, s0)`.
 */
module PredictionService {
  import opened Errors
  import opened Combos
  import opened Text
  import opened RandomGenerator
  import opened DuplicateCheck
  import opened Prediction

  /** The value the constructor gives `max_retries`. */
  const DefaultMaxRetries: int := 100
  const MinPredictions: int := 1
  const MaxPredictions: int := 20

  /** The argument `num_predictions`: an integer, or a value of another type, by its type name. */
  datatype CountInput = IntCount(n: int) | NotAnInteger(typeName: string)

  datatype Oracle = Oracle(candidates: nat -> seq<int>, clock: nat -> int, fetch: nat -> Fetch)

  /** The duplicate checker's cache fields after the first `k` checks. */
  function StateAfter(o: Oracle, s0: CacheState, k: nat): CacheState
  {
    if k == 0 then s0
    else Query(StateAfter(o, s0, k - 1), o.candidates(k - 1), o.clock(k - 1), o.fetch(k - 1)).1
  }

  /** The verdict of check number `k`. */
  function DupStream(o: Oracle, s0: CacheState): nat -> bool
  {
    (k: nat) => Query(StateAfter(o, s0, k), o.candidates(k), o.clock(k), o.fetch(k)).0
  }

  /** The set `generated_combinations` built from the combinations accepted so far. */
  function Elems(s: seq<seq<int>>): set<seq<int>>
  {
    set c | c in s
  }

  /** How `_generate_single_prediction` ends, and the number of the next attempt. */
  datatype SlotOutcome = Accepted(combination: seq<int>, next: nat) | Exhausted(next: nat)

  /**
   * `_generate_single_prediction` from attempt `k` with `retryCount` retries
   * used. A candidate is skipped, costing one retry, when the checker calls it
   * a duplicate (`dup`) or when it is already in `generated`.
   */
  function Slot(candidates: nat -> seq<int>, dup: nat -> bool, generated: set<seq<int>>,
                k: nat, retryCount: int, maxRetries: int): SlotOutcome
    decreases maxRetries - retryCount
  {
    if retryCount >= maxRetries then Exhausted(k)
    else if dup(k) || candidates(k) in generated then
      Slot(candidates, dup, generated, k + 1, retryCount + 1, maxRetries)
    else Accepted(candidates(k), k + 1)
  }

  /** How a whole batch ends: the accepted combinations, or the first exhausted slot. */
  datatype BatchOutcome = Done(combinations: seq<seq<int>>, next: nat) | Failed(next: nat)

  /** The loop of `generate_predictions`, `done` holding the combinations accepted so far. */
  function Batch(candidates: nat -> seq<int>, dup: nat -> bool, count: nat,
                 k: nat, done: seq<seq<int>>, maxRetries: int): BatchOutcome
    decreases count - |done|
  {
    if |done| >= count then Done(done, k)
    else match Slot(candidates, dup, Elems(done), k, 0, maxRetries)
      case Accepted(c, next) => Batch(candidates, dup, count, next, done + [c], maxRetries)
      case Exhausted(next) => Failed(next)
  }

  function ExhaustedMessage(maxRetries: int): string
  {
    "최대 재시도 횟수(" + IntToString(maxRetries) + ")를 초과했습니다. 유효한 조합을 생성할 수 없습니다."
  }

  /** One `LottoPrediction` per combination, with score 0.0 and no common numbers. */
  function Predictions(cs: seq<seq<int>>): (ps: seq<LottoPrediction>)
    ensures |ps| == |cs|
  {
    if cs == [] then [] else Predictions(cs[..|cs| - 1]) + [LottoPrediction(cs[|cs| - 1], 0.0, 0)]
  }

  /** The result of `generate_predictions` and the number of duplicate checks it made. */
  datatype Run = Run(result: Result<seq<LottoPrediction>>, checks: nat)

  /** `generate_predictions`: the two validations, then the batch. */
  function Generate(input: CountInput, candidates: nat -> seq<int>, dup: nat -> bool, maxRetries: int): Run
  {
    match input
    case NotAnInteger(t) =>
      Run(Err(ValidationError("num_predictions must be an integer, got " + t)), 0)
    case IntCount(n) =>
      if !(MinPredictions <= n <= MaxPredictions) then
        Run(Err(ValidationError("num_predictions must be between 1 and 20, got " + IntToString(n))), 0)
      else match Batch(candidates, dup, n, 0, [], maxRetries)
        case Done(cs, next) => Run(Ok(Predictions(cs)), next)
        case Failed(next) => Run(Err(PredictionGenerationError(ExhaustedMessage(maxRetries))), next)
  }

  /**
   * An accepted combination is the candidate of the attempt just before
   * `next`, it passed the duplicate check and is new to the batch, every
   * earlier attempt of the slot was rejected, and no more than the remaining
   * retries were spent.
   */
  lemma {:induction false} SlotAccepted(c: nat -> seq<int>, d: nat -> bool, g: set<seq<int>>, k: nat, r: int, m: int)
    requires Slot(c, d, g, k, r, m).Accepted?
    ensures var out := Slot(c, d, g, k, r, m);
      && k < out.next <= k + (m - r)
      && out.combination == c(out.next - 1) && !d(out.next - 1) && out.combination !in g
      && forall j :: k <= j < out.next - 1 ==> d(j) || c(j) in g
    decreases m - r
  {
    if d(k) || c(k) in g {
      SlotAccepted(c, d, g, k + 1, r + 1, m);
    }
  }

  /** A slot that gives up has rejected exactly its remaining retries' worth of candidates. */
  lemma {:induction false} SlotExhausted(c: nat -> seq<int>, d: nat -> bool, g: set<seq<int>>, k: nat, r: int, m: int)
    requires r <= m
    requires Slot(c, d, g, k, r, m).Exhausted?
    ensures Slot(c, d, g, k, r, m).next == k + (m - r)
    ensures forall j :: k <= j < k + (m - r) ==> d(j) || c(j) in g
    decreases m - r
  {
    if r < m {
      SlotExhausted(c, d, g, k + 1, r + 1, m);
    }
  }

  /** A slot gives up exactly when every candidate within its retry budget is rejected. */
  lemma SlotExhaustedIff(c: nat -> seq<int>, d: nat -> bool, g: set<seq<int>>, k: nat, r: int, m: int)
    requires r <= m
    ensures Slot(c, d, g, k, r, m).Exhausted? <==> forall j :: k <= j < k + (m - r) ==> d(j) || c(j) in g
  {
    if Slot(c, d, g, k, r, m).Exhausted? {
      SlotExhausted(c, d, g, k, r, m);
    } else {
      SlotAccepted(c, d, g, k, r, m);
    }
  }

  /**
   * A finished batch holds `count` pairwise different combinations, extends
   * the ones accepted before, and every new one is a candidate that passed
   * its duplicate check.
   */
  lemma {:induction false} BatchDone(c: nat -> seq<int>, d: nat -> bool, count: nat, k: nat, done: seq<seq<int>>, m: int)
    requires |done| <= count && Distinct(done)
    requires Batch(c, d, count, k, done, m).Done?
    ensures var cs := Batch(c, d, count, k, done, m).combinations;
      && |cs| == count && cs[..|done|] == done && Distinct(cs)
      && forall i :: |done| <= i < |cs| ==> exists j :: j >= k && c(j) == cs[i] && !d(j)
    decreases count - |done|
  {
    if |done| < count {
      var out := Slot(c, d, Elems(done), k, 0, m);
      SlotAccepted(c, d, Elems(done), k, 0, m);
      var done' := done + [out.combination];
      assert Distinct(done') by {
        assert forall i :: 0 <= i < |done| ==> done[i] in Elems(done);
      }
      BatchDone(c, d, count, out.next, done', m);
      var cs := Batch(c, d, count, k, done, m).combinations;
      assert cs[..|done'|] == done';
      assert cs[..|done|] == done' [..|done|] == done;
      forall i | |done| <= i < |cs|
        ensures exists j :: j >= k && c(j) == cs[i] && !d(j)
      {
        if i == |done| {
          assert cs[i] == done'[i];
          assert c(out.next - 1) == cs[i] && !d(out.next - 1);
        }
      }
    }
  }

  lemma {:induction false} PredictionsAt(cs: seq<seq<int>>)
    ensures forall i :: 0 <= i < |cs| ==> Predictions(cs)[i] == LottoPrediction(cs[i], 0.0, 0)
  {
    if cs != [] {
      PredictionsAt(cs[..|cs| - 1]);
    }
  }

  /** Both validations happen before any combination is generated or checked. */
  lemma GenerateRejectsInvalidCount(input: CountInput, c: nat -> seq<int>, d: nat -> bool, m: int)
    requires input.NotAnInteger? || !(1 <= input.n <= 20)
    ensures Generate(input, c, d, m).checks == 0
    ensures input.NotAnInteger? ==>
      Generate(input, c, d, m).result == Err(ValidationError("num_predictions must be an integer, got " + input.typeName))
    ensures input.IntCount? ==>
      Generate(input, c, d, m).result == Err(ValidationError("num_predictions must be between 1 and 20, got " + IntToString(input.n)))
  {
  }

  /**
   * A successful call returns exactly the requested number of predictions,
   * their combinations pairwise different, each with score 0.0 and no
   * common numbers, and each a candidate that passed the duplicate check.
   */
  lemma GenerateSucceeded(input: CountInput, c: nat -> seq<int>, d: nat -> bool, m: int)
    requires Generate(input, c, d, m).result.Ok?
    ensures input.IntCount? && 1 <= input.n <= 20
    ensures var ps := Generate(input, c, d, m).result.value;
      && |ps| == input.n
      && (forall i :: 0 <= i < |ps| ==> ps[i].score == 0.0 && ps[i].commonWithLast == 0)
      && (forall i, j :: 0 <= i < j < |ps| ==> ps[i].combination != ps[j].combination)
      && (forall i :: 0 <= i < |ps| ==> exists k :: c(k) == ps[i].combination && !d(k))
  {
    var cs := Batch(c, d, input.n, 0, [], m).combinations;
    BatchDone(c, d, input.n, 0, [], m);
    PredictionsAt(cs);
  }

  /** A failed batch reports the retry limit in its message. */
  lemma GenerateFailed(input: CountInput, c: nat -> seq<int>, d: nat -> bool, m: int)
    requires input.IntCount? && 1 <= input.n <= 20
    requires Generate(input, c, d, m).result.Err?
    ensures Generate(input, c, d, m).result.error == PredictionGenerationError(ExhaustedMessage(m))
  {
  }

  /** A candidate is what `generate_combination` can return: a sorted valid combination without an extreme pattern. */
  predicate Acceptable(x: seq<int>)
  {
    IsCombination(x) && !Extreme(x)
  }

  /** When every candidate is acceptable, so is every prediction. */
  lemma GenerateValidPredictions(input: CountInput, c: nat -> seq<int>, d: nat -> bool, m: int)
    requires forall k :: Acceptable(c(k))
    requires Generate(input, c, d, m).result.Ok?
    ensures forall p :: p in Generate(input, c, d, m).result.value ==> Acceptable(p.combination)
  {
    GenerateSucceeded(input, c, d, m);
  }

  /** A slot in which every check says "duplicate" gives up after exactly its remaining retries. */
  lemma {:induction false} AllDuplicatesExhaust(c: nat -> seq<int>, d: nat -> bool, g: set<seq<int>>, k: nat, r: int, m: int)
    requires r <= m
    requires forall j :: d(j)
    ensures Slot(c, d, g, k, r, m) == Exhausted(k + (m - r))
    decreases m - r
  {
    if r < m {
      AllDuplicatesExhaust(c, d, g, k + 1, r + 1, m);
    }
  }

  /** Every check a duplicate, a retry limit of ten, one prediction asked for: ten checks, then the error. */
  lemma RetryLimitExample(c: nat -> seq<int>)
    ensures Generate(IntCount(1), c, (k: nat) => true, 10)
         == Run(Err(PredictionGenerationError(ExhaustedMessage(10))), 10)
  {
    AllDuplicatesExhaust(c, (k: nat) => true, Elems([]), 0, 0, 10);
  }

  /** The first check a duplicate and the rest not: three predictions cost four checks. */
  lemma SkipsDuplicateExample()
    ensures var c := (k: nat) => [k];
      Generate(IntCount(3), c, (k: nat) => k == 0, 100)
      == Run(Ok(Predictions([[1], [2], [3]])), 4)
  {
    var c := (k: nat) => [k];
    var d := (k: nat) => k == 0;
    assert Slot(c, d, Elems([]), 0, 0, 100) == Accepted([1], 2) by {
      assert Slot(c, d, Elems([]), 1, 1, 100) == Accepted([1], 2);
    }
    var none: seq<seq<int>> := [];
    assert none + [[1]] == [[1]];
    assert Batch(c, d, 3, 0, none, 100) == Batch(c, d, 3, 2, [[1]], 100);
    assert [2] !in Elems([[1]]);
    assert Slot(c, d, Elems([[1]]), 2, 0, 100) == Accepted([2], 3);
    assert [[1]] + [[2]] == [[1], [2]];
    assert Batch(c, d, 3, 2, [[1]], 100) == Batch(c, d, 3, 3, [[1], [2]], 100);
    assert [3] !in Elems([[1], [2]]);
    assert Slot(c, d, Elems([[1], [2]]), 3, 0, 100) == Accepted([3], 4);
    assert [[1], [2]] + [[3]] == [[1], [2], [3]];
    assert Batch(c, d, 3, 3, [[1], [2]], 100) == Done([[1], [2], [3]], 4);
  }

  /**
   * With a data service that always returns the same winning set and a cache
   * that is empty or already holds that set, the cache never holds anything else.
   */
  lemma {:induction false} FixedSnapshotCache(o: Oracle, s0: CacheState, w: set<seq<int>>, k: nat)
    requires forall j :: o.fetch(j) == Snapshot(w)
    requires s0.cache.None? || s0.cache == Some(w)
    ensures StateAfter(o, s0, k).cache.None? || StateAfter(o, s0, k).cache == Some(w)
  {
    if k > 0 {
      FixedSnapshotCache(o, s0, w, k - 1);
    }
  }

  /**
   * Under such a data service, a candidate that passed its duplicate check
   * is six numbers whose sorted form is not a winning combination.
   */
  lemma PassedCheckIsNotWinning(o: Oracle, s0: CacheState, w: set<seq<int>>, k: nat)
    requires forall j :: o.fetch(j) == Snapshot(w)
    requires s0.cache.None? || s0.cache == Some(w)
    requires !DupStream(o, s0)(k)
    ensures |o.candidates(k)| == 6 && SortAsc(o.candidates(k)) !in w
  {
    FixedSnapshotCache(o, s0, w, k);
    NotDuplicateMeansAbsent(StateAfter(o, s0, k), o.candidates(k), o.clock(k), o.fetch(k));
  }

  /**
   * The whole pipeline: when every candidate is what `generate_combination`
   * returns for some prefix of random draws, and the data service answers
   * with one fixed set of winning combinations, a successful call returns
   * exactly the requested number of predictions, pairwise different, each a
   * strictly ascending valid combination with no extreme pattern and none
   * of them a past winning combination.
   */
  lemma GeneratedPredictionsAreFresh(input: CountInput, o: Oracle, s0: CacheState, w: set<seq<int>>, m: int,
                                     draws: nat -> seq<seq<int>>)
    requires forall k :: AllDraws(draws(k)) && FirstAcceptable(draws(k)) == Some(o.candidates(k))
    requires forall j :: o.fetch(j) == Snapshot(w)
    requires s0.cache.None? || s0.cache == Some(w)
    requires Generate(input, o.candidates, DupStream(o, s0), m).result.Ok?
    ensures input.IntCount?
    ensures var ps := Generate(input, o.candidates, DupStream(o, s0), m).result.value;
      && |ps| == input.n
      && (forall i, j :: 0 <= i < j < |ps| ==> ps[i].combination != ps[j].combination)
      && (forall i :: 0 <= i < |ps| ==>
            && Acceptable(ps[i].combination)
            && StrictlyAscending(ps[i].combination)
            && ps[i].combination !in w)
  {
    var c := o.candidates;
    var d := DupStream(o, s0);
    GenerateSucceeded(input, c, d, m);
    var ps := Generate(input, c, d, m).result.value;
    forall i | 0 <= i < |ps|
      ensures Acceptable(ps[i].combination) && StrictlyAscending(ps[i].combination) && ps[i].combination !in w
    {
      var k :| c(k) == ps[i].combination && !d(k);
      FirstAcceptableValid(draws(k));
      PassedCheckIsNotWinning(o, s0, w, k);
      SortAscOfSorted(c(k));
    }
  }

  class SimplifiedPredictionService {
    const duplicateChecker: DuplicateChecker
    var maxRetries: int

    constructor (checker: DuplicateChecker)
      ensures duplicateChecker == checker && maxRetries == DefaultMaxRetries
    {
      duplicateChecker := checker;
      maxRetries := DefaultMaxRetries;
    }

    /**
     * `_generate_single_prediction`, starting at attempt `k` of the oracle
     * with the checker in the state its first `k` checks left; `next` is the
     * number of checks made once it returns.
     */
    method GenerateSinglePrediction(generated: set<seq<int>>, o: Oracle, k: nat, ghost s0: CacheState)
      returns (r: Result<seq<int>>, next: nat)
      requires duplicateChecker.State() == StateAfter(o, s0, k)
      modifies duplicateChecker
      ensures var out := Slot(o.candidates, DupStream(o, s0), generated, k, 0, maxRetries);
        && next == out.next
        && r == (if out.Accepted? then Ok(out.combination)
                 else Err(PredictionGenerationError(ExhaustedMessage(maxRetries))))
      ensures duplicateChecker.State() == StateAfter(o, s0, next)
    {
      var retryCount := 0;
      next := k;
      while retryCount < maxRetries
        invariant Slot(o.candidates, DupStream(o, s0), generated, k, 0, maxRetries)
               == Slot(o.candidates, DupStream(o, s0), generated, next, retryCount, maxRetries)
        invariant duplicateChecker.State() == StateAfter(o, s0, next)
        decreases maxRetries - retryCount
      {
        var combination := o.candidates(next);
        var isHistoricalDuplicate := duplicateChecker.IsDuplicate(combination, o.clock(next), o.fetch(next));
        next := next + 1;
        if isHistoricalDuplicate {
          retryCount := retryCount + 1;
          continue;
        }
        if combination in generated {
          retryCount := retryCount + 1;
          continue;
        }
        return Ok(combination), next;
      }
      return Err(PredictionGenerationError(ExhaustedMessage(maxRetries))), next;
    }

    /**
     * `generate_predictions`: the result is `Generate` on the oracle's
     * candidates and the checker's verdicts, and the checker ends in the
     * state those checks leave.
     */
    method GeneratePredictions(input: CountInput, o: Oracle) returns (r: Result<seq<LottoPrediction>>)
      modifies duplicateChecker
      ensures var run := Generate(input, o.candidates, DupStream(o, old(duplicateChecker.State())), maxRetries);
        && r == run.result
        && duplicateChecker.State() == StateAfter(o, old(duplicateChecker.State()), run.checks)
    {
      ghost var s0 := duplicateChecker.State();
      ghost var d := DupStream(o, s0);
      match input {
        case NotAnInteger(t) =>
          return Err(ValidationError("num_predictions must be an integer, got " + t));
        case IntCount(n) =>
          if !(MinPredictions <= n <= MaxPredictions) {
            return Err(ValidationError("num_predictions must be between 1 and 20, got " + IntToString(n)));
          }
          var predictions: seq<LottoPrediction> := [];
          var generatedCombinations: set<seq<int>> := {};
          ghost var accepted: seq<seq<int>> := [];
          var attempt: nat := 0;
          for i := 0 to n
            invariant |accepted| == i
            invariant predictions == Predictions(accepted)
            invariant generatedCombinations == Elems(accepted)
            invariant Batch(o.candidates, d, n, 0, [], maxRetries) == Batch(o.candidates, d, n, attempt, accepted, maxRetries)
            invariant duplicateChecker.State() == StateAfter(o, s0, attempt)
          {
            var combination, next := GenerateSinglePrediction(generatedCombinations, o, attempt, s0);
            if combination.Err? {
              return Err(combination.error);
            }
            generatedCombinations := generatedCombinations + {combination.value};
            predictions := predictions + [LottoPrediction(combination.value, 0.0, 0)];
            ghost var before := accepted;
            accepted := accepted + [combination.value];
            assert accepted[..|accepted| - 1] == before;
            attempt := next;
          }
          return Ok(predictions);
      }
    }
  }
}

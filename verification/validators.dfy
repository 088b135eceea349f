/**
 * `LottoValidator.validate_numbers` (utils/validators.py): three checks in
 * order (the count, repeated numbers, the range), each answering `False`.
 */
module Validators {
  import opened Combos

  const DefaultMinNum: int := 1
  const DefaultMaxNum: int := 45
  const DefaultCount: int := 6

  /**
   * The check on repeats compares the size of `set(numbers)` with `count`;
   * once the length equals `count` that is the same as "no value repeats".
   */
  function ValidateNumbers(numbers: seq<int>, minNum: int, maxNum: int, count: int): (ok: bool)
    ensures ok <==> |numbers| == count && Distinct(numbers) && AllInRange(numbers, minNum, maxNum)
  {
    DistinctIffSetSize(numbers);
    if |numbers| != count then false
    else if |SetOf(numbers)| != count then false
    else if !(forall i :: 0 <= i < |numbers| ==> minNum <= numbers[i] <= maxNum) then false
    else true
  }

  /** With the default arguments the check accepts exactly the valid draws. */
  lemma DefaultsAcceptDraws(numbers: seq<int>)
    ensures ValidateNumbers(numbers, DefaultMinNum, DefaultMaxNum, DefaultCount) <==> IsDraw(numbers)
  {
  }

  /** A repeated number is refused even when the count and the range are right. */
  lemma RepeatRejected()
    ensures !ValidateNumbers([1, 1, 2, 3, 4, 5], 1, 45, 6)
  {
    assert [1, 1, 2, 3, 4, 5][0] == [1, 1, 2, 3, 4, 5][1];
  }
}

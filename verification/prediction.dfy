/**
 * `LottoPrediction` (models/prediction.py): one predicted combination with its
 * score and the count of numbers it shares with the last draw, and its
 * dictionary form.
 */
module Prediction {
  import opened Errors

  /** The dataclass. `score` is a Python float, kept here as an exact real. */
  datatype LottoPrediction = LottoPrediction(combination: seq<int>, score: real, commonWithLast: int)

  /** A value of the dictionary form: the number list, the score or the count. */
  datatype Value = IntList(items: seq<int>) | Number(r: real) | Integer(i: int)

  type Dict = map<string, Value>

  const CombinationKey: string := "combination"
  const ScoreKey: string := "score"
  const CommonKey: string := "common_with_last"

  /** `to_dict`: exactly the three fields under their Python names. */
  function ToDict(p: LottoPrediction): (d: Dict)
    ensures d.Keys == {CombinationKey, ScoreKey, CommonKey}
    ensures d[CombinationKey] == IntList(p.combination)
    ensures d[ScoreKey] == Number(p.score) && d[CommonKey] == Integer(p.commonWithLast)
  {
    map[CombinationKey := IntList(p.combination), ScoreKey := Number(p.score), CommonKey := Integer(p.commonWithLast)]
  }

  /** Each of the three keys that is present holds a value of its field's declared type. */
  predicate WellTyped(d: Dict)
  {
    && (CombinationKey in d ==> d[CombinationKey].IntList?)
    && (ScoreKey in d ==> d[ScoreKey].Number?)
    && (CommonKey in d ==> d[CommonKey].Integer?)
  }

  /**
   * `from_dict`: the keyword arguments are read in the order combination,
   * score, common_with_last, so the first of them that is missing is the key
   * of the KeyError. Other keys are ignored.
   */
  function FromDict(d: Dict): (r: Result<LottoPrediction>)
    requires WellTyped(d)
    ensures r.Ok? <==> CombinationKey in d && ScoreKey in d && CommonKey in d
    ensures r.Ok? ==> ToDict(r.value) == map k | k in d && k in {CombinationKey, ScoreKey, CommonKey} :: d[k]
    ensures CombinationKey !in d ==> r == Err(KeyError(CombinationKey))
    ensures CombinationKey in d && ScoreKey !in d ==> r == Err(KeyError(ScoreKey))
    ensures CombinationKey in d && ScoreKey in d && CommonKey !in d ==> r == Err(KeyError(CommonKey))
  {
    if CombinationKey !in d then Err(KeyError(CombinationKey))
    else if ScoreKey !in d then Err(KeyError(ScoreKey))
    else if CommonKey !in d then Err(KeyError(CommonKey))
    else Ok(LottoPrediction(d[CombinationKey].items, d[ScoreKey].r, d[CommonKey].i))
  }

  /** `from_dict(p.to_dict())` rebuilds `p`; neither direction sorts or checks the numbers. */
  lemma FromDictToDict(p: LottoPrediction)
    ensures WellTyped(ToDict(p)) && FromDict(ToDict(p)) == Ok(p)
  {
  }

  /** Keys other than the three fields make no difference to `from_dict`. */
  lemma FromDictIgnoresOtherKeys(d: Dict, e: Dict)
    requires WellTyped(d) && WellTyped(e)
    requires forall k :: k in {CombinationKey, ScoreKey, CommonKey} ==> (k in d <==> k in e) && (k in d ==> d[k] == e[k])
    ensures FromDict(d) == FromDict(e)
  {
    assert CombinationKey in {CombinationKey, ScoreKey, CommonKey};
    assert ScoreKey in {CombinationKey, ScoreKey, CommonKey};
    assert CommonKey in {CombinationKey, ScoreKey, CommonKey};
  }
}

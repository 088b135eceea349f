/**
 * The field validators of the prediction API's request models and the
 * number formatting of its results (api/schemas/prediction.py). A validator
 * returns the value unchanged or raises the ValueError that pydantic reports.
 */
module Schemas {
  import opened Errors
  import opened Combos
  import opened Text
  import Validators
  import PredictionService

  /** The default of `PredictionRequest.count`. */
  const DefaultCount: int := 5

  /** `PredictionRequest.validate_count`. */
  function ValidateCount(v: int): (r: Result<int>)
    ensures r.Ok? <==> 1 <= v <= 20
    ensures r.Ok? ==> r.value == v
    ensures r.Err? ==> r.error == ValueError("예측 개수는 1~20 사이여야 합니다")
  {
    if v < 1 || v > 20 then Err(ValueError("예측 개수는 1~20 사이여야 합니다")) else Ok(v)
  }

  /** The API accepts exactly the counts the prediction service accepts. */
  lemma CountAgreesWithService(v: int)
    ensures ValidateCount(v).Ok? <==> PredictionService.MinPredictions <= v <= PredictionService.MaxPredictions
  {
  }

  /** The default count passes the validator and the service's own range check. */
  lemma DefaultCountAccepted()
    ensures ValidateCount(DefaultCount) == Ok(DefaultCount)
    ensures PredictionService.MinPredictions <= DefaultCount <= PredictionService.MaxPredictions
  {
  }

  /** `DrawResultRequest.validate_draw_no`. */
  function ValidateDrawNo(v: int): (r: Result<int>)
    ensures r.Ok? <==> v >= 1
    ensures r.Ok? ==> r.value == v
    ensures r.Err? ==> r.error == ValueError("회차 번호는 1 이상이어야 합니다")
  {
    if v < 1 then Err(ValueError("회차 번호는 1 이상이어야 합니다")) else Ok(v)
  }

  /**
   * `DrawResultRequest.validate_numbers`: accepted exactly when the numbers
   * form a draw; the count is checked first, then repeats, then the range.
   */
  function ValidateNumbers(v: seq<int>): (r: Result<seq<int>>)
    ensures r.Ok? <==> IsDraw(v)
    ensures r.Ok? ==> r.value == v
    ensures |v| != 6 ==> r == Err(ValueError("당첨 번호는 정확히 6개여야 합니다"))
    ensures |v| == 6 && !Distinct(v) ==> r == Err(ValueError("당첨 번호에 중복이 있습니다"))
    ensures |v| == 6 && Distinct(v) && !IsDraw(v) ==> r == Err(ValueError("모든 번호는 1~45 사이여야 합니다"))
  {
    DistinctIffSetSize(v);
    if |v| != 6 then Err(ValueError("당첨 번호는 정확히 6개여야 합니다"))
    else if |SetOf(v)| != 6 then Err(ValueError("당첨 번호에 중복이 있습니다"))
    else if exists i :: 0 <= i < |v| && (v[i] < 1 || v[i] > 45) then Err(ValueError("모든 번호는 1~45 사이여야 합니다"))
    else Ok(v)
  }

  /** The request validator and `LottoValidator.validate_numbers` with its defaults accept the same lists. */
  lemma NumbersAgreeWithValidator(v: seq<int>)
    ensures ValidateNumbers(v).Ok? == Validators.ValidateNumbers(v, 1, 45, 6)
  {
  }

  /** `DrawResultRequest.validate_bonus`: `None`, or a number in 1..45. */
  function ValidateBonus(v: Option<int>): (r: Result<Option<int>>)
    ensures r.Ok? <==> v.None? || 1 <= v.value <= 45
    ensures r.Ok? ==> r.value == v
    ensures r.Err? ==> r.error == ValueError("보너스 번호는 1~45 사이여야 합니다")
  {
    if v.Some? && (v.value < 1 || v.value > 45) then Err(ValueError("보너스 번호는 1~45 사이여야 합니다"))
    else Ok(v)
  }

  /** `PredictionResult.format_numbers`: the numbers ascending, joined by ", ". */
  function FormatNumbers(combination: seq<int>): string
  {
    Join(", ", MapToString(SortAsc(combination)))
  }

  /** Reads back a list of pieces with `int()`; `None` when one of them is not a number. */
  function ParseAll(pieces: seq<string>): Option<seq<int>>
  {
    if pieces == [] then Some([])
    else match ParseInt(pieces[0])
      case None => None
      case Some(v) =>
        match ParseAll(pieces[1..])
        case None => None
        case Some(vs) => Some([v] + vs)
  }

  lemma NoCommaInIntToString(n: int)
    ensures ',' !in IntToString(n)
  {
    var d := NatToString(if n < 0 then -n else n);
    assert forall i :: 0 <= i < |d| ==> d[i] != ',';
    if n < 0 {
      assert IntToString(n) == "-" + d;
      assert forall i :: 0 <= i < |"-" + d| ==> ("-" + d)[i] != ',';
    }
  }

  lemma ParseAllCons(x: string, rest: seq<string>, v: int, vs: seq<int>)
    requires ParseInt(x) == Some(v) && ParseAll(rest) == Some(vs)
    ensures ParseAll([x] + rest) == Some([v] + vs)
  {
    assert ([x] + rest)[1..] == rest;
  }

  /** Splitting `", ".join` of integers at the commas and reading every piece with `int()` gives them back. */
  lemma {:induction false} JoinedIntegersParse(s: seq<int>)
    requires s != []
    ensures ParseAll(SplitOn(Join(", ", MapToString(s)), ',')) == Some(s)
    decreases |s|
  {
    if |s| == 1 {
      var a := IntToString(s[0]);
      NoCommaInIntToString(s[0]);
      SplitOnNoSeparator(a, ',');
      ParseIntOfIntToString(s[0]);
      assert MapToString(s) == [a];
      ParseAllCons(a, [], s[0], []);
      assert [a] + [] == [a] && [s[0]] + [] == s;
    } else {
      JoinedIntegersParse(s[1..]);
      JoinedIntegersParseStep(s);
    }
  }

  /** If the rest of a list reads back, the whole list does. */
  lemma JoinedIntegersParseStep(s: seq<int>)
    requires |s| >= 2
    requires ParseAll(SplitOn(Join(", ", MapToString(s[1..])), ',')) == Some(s[1..])
    ensures ParseAll(SplitOn(Join(", ", MapToString(s)), ',')) == Some(s)
  {
    var p := SplitOn(Join(", ", MapToString(s[1..])), ',');
    ParseIntOfIntToString(s[0]);
    SplitJoinedStep(s);
    ParseSkipsPad(p, s[1..]);
    ParseAllCons(IntToString(s[0]), [" " + p[0]] + p[1..], s[0], s[1..]);
    assert [s[0]] + s[1..] == s;
  }

  /** The strings of a non-empty list: the first number's, then the rest's. */
  lemma MapToStringCons(s: seq<int>)
    requires s != []
    ensures MapToString(s) == [IntToString(s[0])] + MapToString(s[1..])
  {
    var r := [IntToString(s[0])] + MapToString(s[1..]);
    assert forall i :: 0 <= i < |s| ==> MapToString(s)[i] == r[i];
  }

  /** The pieces of a joined list of two or more: the first number, then the rest's pieces with a leading space. */
  lemma SplitJoinedStep(s: seq<int>)
    requires |s| >= 2
    ensures var p := SplitOn(Join(", ", MapToString(s[1..])), ',');
      SplitOn(Join(", ", MapToString(s)), ',') == [IntToString(s[0])] + ([" " + p[0]] + p[1..])
  {
    var a := IntToString(s[0]);
    NoCommaInIntToString(s[0]);
    SplitOnNoSeparator(a, ',');
    var rest := MapToString(s[1..]);
    MapToStringCons(s);
    var j := Join(", ", rest);
    assert Join(", ", [a] + rest) == a + [','] + (" " + j) by {
      assert ([a] + rest)[1..] == rest;
    }
    SplitOnAt(a, ',', " " + j);
    SplitOnPrefix(" ", j, ',');
  }

  /** A space in front of the first piece does not change what the pieces read as. */
  lemma ParseSkipsPad(p: seq<string>, vs: seq<int>)
    requires p != [] && ParseAll(p) == Some(vs)
    ensures ParseAll([" " + p[0]] + p[1..]) == Some(vs)
  {
    ParseIntSkipsSpace(p[0]);
    assert p == [p[0]] + p[1..];
    var first := ParseInt(p[0]);
    var later := ParseAll(p[1..]);
    assert first.Some? && later.Some? && [first.value] + later.value == vs;
    ParseAllCons(" " + p[0], p[1..], first.value, later.value);
  }

  /** The formatted numbers read back as the ascending list of the combination. */
  lemma FormatNumbersReadsBack(combination: seq<int>)
    requires combination != []
    ensures ParseAll(SplitOn(FormatNumbers(combination), ',')) == Some(SortAsc(combination))
  {
    JoinedIntegersParse(SortAsc(combination));
  }

  /** The stored order does not matter. */
  lemma FormatNumbersOrderFree(a: seq<int>, b: seq<int>)
    requires multiset(a) == multiset(b)
    ensures FormatNumbers(a) == FormatNumbers(b)
  {
    SortAscOfPermutation(a, b);
  }
}

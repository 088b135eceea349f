/**
 * AsyncDataService (services/data_service.py): holds the loaded past draws
 * and the set of their sorted number tuples, answers whether a combination
 * is new, lists the winning combinations and prepares the stored prediction.
 *
 * The repository and database calls are inputs: what `get_last_draw`,
 * `get_draws_by_range` and the two queries of `save_prediction` returned or
 * raised.
 */
module DataService {
  import opened Errors
  import opened Combos
  import opened Text
  import opened LottoDraws
  import opened DuplicateCheck

  /** The default first draw number of `load_historical_data`. */
  const DefaultStartNo: int := 601

  /** `AsyncLottoRepository.get_last_draw()`: the row (empty when there is none) or an exception. */
  datatype LastDrawFetch = LastDrawRow(row: Row) | LastDrawRaised(error: Error)

  /** `AsyncLottoRepository.get_draws_by_range(start_no, end_no)`: the rows or an exception. */
  datatype RowsFetch = RowsFetched(rows: seq<Row>) | RowsRaised(error: Error)

  /** The fields `draws` and `existing_combinations`. */
  datatype DataState = DataState(draws: seq<LottoDraw>, existing: set<seq<int>>)

  /** The sorted tuples of a list of draws. */
  function TupleSet(draws: seq<LottoDraw>): set<seq<int>>
  {
    set d | d in draws :: NumbersTuple(d)
  }

  /** The tuples of the draws in draw order hold exactly the tuple set. */
  lemma TuplesInDrawOrder(draws: seq<LottoDraw>, combinations: seq<seq<int>>)
    requires |combinations| == |draws|
    requires forall i :: 0 <= i < |draws| ==> combinations[i] == NumbersTuple(draws[i])
    ensures (set c | c in combinations) == TupleSet(draws)
  {
    forall t | t in TupleSet(draws) ensures t in combinations {
      var d :| d in draws && t == NumbersTuple(d);
      var j :| 0 <= j < |draws| && draws[j] == d;
      assert combinations[j] == t;
    }
  }

  /** What the service keeps true: valid draws, and the tuple set built from exactly them. */
  predicate Inv(st: DataState)
  {
    && (forall d :: d in st.draws ==> IsDraw(d.numbers))
    && st.existing == TupleSet(st.draws)
  }

  /** The draws `from_db_row` accepts, in row order; rejected rows are skipped. */
  function ValidDraws(rows: seq<Row>): seq<LottoDraw>
  {
    if rows == [] then []
    else
      var last := rows[|rows| - 1];
      ValidDraws(rows[..|rows| - 1]) + (if DrawOfRow(last).Ok? then [DrawOfRow(last).value] else [])
  }

  /** Filtering a concatenation is concatenating the filtered parts: the row order is kept. */
  lemma {:induction false} ValidDrawsAppend(a: seq<Row>, b: seq<Row>)
    ensures ValidDraws(a + b) == ValidDraws(a) + ValidDraws(b)
    decreases |b|
  {
    if b != [] {
      var b' := b[..|b| - 1];
      assert (a + b)[..|a + b| - 1] == a + b';
      assert (a + b)[|a + b| - 1] == b[|b| - 1];
      ValidDrawsAppend(a, b');
    } else {
      assert a + b == a;
    }
  }

  /** A single row contributes its draw when accepted and nothing otherwise. */
  lemma ValidDrawsSingle(row: Row)
    ensures ValidDraws([row]) == if DrawOfRow(row).Ok? then [DrawOfRow(row).value] else []
  {
    assert [row][..0] == [];
  }

  /** Every kept draw is valid, and no more draws than rows are kept. */
  lemma {:induction false} ValidDrawsAreDraws(rows: seq<Row>)
    ensures |ValidDraws(rows)| <= |rows|
    ensures forall d :: d in ValidDraws(rows) ==> IsDraw(d.numbers)
  {
    if rows != [] {
      ValidDrawsAreDraws(rows[..|rows| - 1]);
      var last := rows[|rows| - 1];
      if DrawOfRow(last).Ok? {
        DrawOfRowFields(last);
      }
    }
  }

  /**
   * `load_historical_data`: the result (`True`, `False` or the exception) and
   * the fields afterwards. The range checks come before any repository call;
   * exceptions of the repository are re-raised unchanged.
   */
  function Load(st: DataState, startNo: int, endNo: Option<int>, last: LastDrawFetch, fetched: RowsFetch): (Result<bool>, DataState)
  {
    if startNo <= 0 then (Err(ValidationError("시작 회차는 1 이상이어야 합니다")), st)
    else if endNo.Some? && endNo.value < startNo then
      (Err(ValidationError("종료 회차는 시작 회차보다 크거나 같아야 합니다")), st)
    else if endNo.None? && last.LastDrawRaised? then (Err(last.error), st)
    else if endNo.None? && last.row == map[] then (Ok(false), st)
    else if endNo.None? && NoKey !in last.row then (Err(KeyError(NoKey)), st)
    else match fetched
      case RowsRaised(e) => (Err(e), st)
      case RowsFetched(rows) =>
        var valid := ValidDraws(rows);
        if valid == [] then (Ok(false), st)
        else (Ok(true), DataState(valid, TupleSet(valid)))
  }

  /** The default call passes both range checks: any error comes from the repository or the missing `no` key. */
  lemma DefaultLoadErrors(st: DataState, last: LastDrawFetch, fetched: RowsFetch)
    ensures var r := Load(st, DefaultStartNo, None, last, fetched).0;
      r.Err? ==>
        || (last.LastDrawRaised? && r.error == last.error)
        || r.error == KeyError(NoKey)
        || (fetched.RowsRaised? && r.error == fetched.error)
  {
  }

  /** An invalid range is refused before the repository is consulted, and nothing changes. */
  lemma LoadChecksRangeFirst(st: DataState, startNo: int, endNo: Option<int>,
                             l1: LastDrawFetch, f1: RowsFetch, l2: LastDrawFetch, f2: RowsFetch)
    requires startNo <= 0 || (endNo.Some? && endNo.value < startNo)
    ensures Load(st, startNo, endNo, l1, f1) == Load(st, startNo, endNo, l2, f2)
    ensures Load(st, startNo, endNo, l1, f1).0.Err? && Load(st, startNo, endNo, l1, f1).0.error.ValidationError?
    ensures Load(st, startNo, endNo, l1, f1).1 == st
  {
  }

  /** `False` (no rows, or no valid row) leaves both fields as they were. */
  lemma LoadFalseKeepsState(st: DataState, startNo: int, endNo: Option<int>, last: LastDrawFetch, fetched: RowsFetch)
    requires Load(st, startNo, endNo, last, fetched).0 == Ok(false)
    ensures Load(st, startNo, endNo, last, fetched).1 == st
  {
  }

  /**
   * `True` means the fetched rows held at least one valid draw; the draws are
   * then exactly the valid ones in row order and the tuple set is built from them.
   */
  lemma LoadTrueReplacesState(st: DataState, startNo: int, endNo: Option<int>, last: LastDrawFetch, fetched: RowsFetch)
    requires Load(st, startNo, endNo, last, fetched).0 == Ok(true)
    ensures fetched.RowsFetched?
    ensures var after := Load(st, startNo, endNo, last, fetched).1;
      && after.draws == ValidDraws(fetched.rows) && after.draws != []
      && after.existing == TupleSet(after.draws)
      && Inv(after)
  {
    ValidDrawsAreDraws(fetched.rows);
  }

  /** Every outcome of a load keeps the invariant. */
  lemma LoadKeepsInv(st: DataState, startNo: int, endNo: Option<int>, last: LastDrawFetch, fetched: RowsFetch)
    requires Inv(st)
    ensures Inv(Load(st, startNo, endNo, last, fetched).1)
  {
    if Load(st, startNo, endNo, last, fetched).0 == Ok(true) {
      LoadTrueReplacesState(st, startNo, endNo, last, fetched);
    }
  }

  /** Under the invariant every stored tuple is a strictly ascending valid combination. */
  lemma ExistingAreCombinations(st: DataState)
    requires Inv(st)
    ensures forall t :: t in st.existing ==> IsCombination(t) && StrictlyAscending(t)
  {
    forall t | t in st.existing ensures IsCombination(t) && StrictlyAscending(t) {
      var d :| d in st.draws && t == NumbersTuple(d);
      NumbersTupleIsSortedPermutation(d);
    }
  }

  /** `last_draw.draw_no + 1`, or 1 without draws; adding to a string or `None` raises. */
  function NextNo(draws: seq<LottoDraw>): Result<int>
  {
    if draws == [] then Ok(1)
    else match draws[|draws| - 1].drawNo
      case IntCell(n) => Ok(n + 1)
      case TextCell(_) => Err(TypeError("can only concatenate str (not \"int\") to str"))
      case NullCell => Err(TypeError("unsupported operand type(s) for +: 'NoneType' and 'int'"))
  }

  /**
   * The parameters `save_prediction` passes to the INSERT, `(next_no,
   * *sorted_numbers)`, or what it raises before the INSERT.
   */
  function SaveParams(combination: seq<int>, draws: seq<LottoDraw>): (r: Result<seq<int>>)
    ensures r.Ok? <==> |combination| == 6 && AllInRange(combination, 1, 45) && NextNo(draws).Ok?
    ensures r.Ok? ==> && |r.value| == 7 && r.value[0] == NextNo(draws).value
                      && Sorted(r.value[1..]) && multiset(r.value[1..]) == multiset(combination)
    ensures |combination| != 6 ==>
      r == Err(ValidationError("조합은 정확히 6개의 숫자여야 합니다: " + ListRepr(combination)))
    ensures |combination| == 6 && !AllInRange(combination, 1, 45) ==>
      r == Err(ValidationError("모든 숫자는 1-45 범위의 정수여야 합니다: " + ListRepr(combination)))
    ensures |combination| == 6 && AllInRange(combination, 1, 45) && NextNo(draws).Err? ==>
      r == Err(NextNo(draws).error)
  {
    SortAscPermutes(combination);
    if combination == [] || |combination| != 6 then
      Err(ValidationError("조합은 정확히 6개의 숫자여야 합니다: " + ListRepr(combination)))
    else if !(forall i :: 0 <= i < |combination| ==> 1 <= combination[i] <= 45) then
      Err(ValidationError("모든 숫자는 1-45 범위의 정수여야 합니다: " + ListRepr(combination)))
    else match NextNo(draws)
      case Err(e) => Err(e)
      case Ok(n) =>
        assert ([n] + SortAsc(combination))[1..] == SortAsc(combination);
        Ok([n] + SortAsc(combination))
  }

  /** Repeated numbers are not refused: only the length and the range are checked. */
  lemma RepeatsNotRefused(same: seq<int>)
    requires |same| == 6 && 1 <= same[0] <= 45
    requires forall i :: 0 <= i < |same| ==> same[i] == same[0]
    ensures SaveParams(same, []) == Ok([1] + same)
  {
    var r := SaveParams(same, []);
    assert AllInRange(same, 1, 45);
    SortedUnique(r.value[1..], same);
    assert r.value == [1] + r.value[1..];
  }

  /** `execute_query` of the INSERT: the affected row count (`None` allowed) or an exception. */
  datatype InsertOutcome = Affected(count: Option<int>) | InsertRaised(error: Error)

  /** `execute_query` of `SELECT LAST_INSERT_ID() as id`: its rows or an exception. */
  datatype IdOutcome = IdRows(rows: seq<Row>) | IdRaised(error: Error)

  const SaveFailedPrefix: string := "예측 저장 실패: "
  const DatabaseFailure: string := "데이터베이스 오류"
  const StoreFailedMessage: string := SaveFailedPrefix + DatabaseFailure

  /** The statements of the `try` block of `save_prediction`: the stored id, or the exception raised in it. */
  function SaveRaised(combination: seq<int>, draws: seq<LottoDraw>, insert: InsertOutcome, ids: IdOutcome): Result<Cell>
  {
    match SaveParams(combination, draws)
    case Err(e) => Err(e)
    case Ok(_) =>
      match insert
      case InsertRaised(e) => Err(e)
      case Affected(count) =>
        if count.None? || count.value <= 0 then Err(DataLoadError(StoreFailedMessage))
        else match ids
          case IdRaised(e) => Err(e)
          case IdRows(rows) =>
            if rows == [] then Ok(IntCell(-1))
            else if "id" in rows[0] then Ok(rows[0]["id"])
            else Err(KeyError("id"))
  }

  /** The `except` clauses as written: a ValidationError passes, anything else is wrapped. */
  function RewrapAsWritten(e: Error): Error
  {
    if e.ValidationError? then e else DataLoadError(SaveFailedPrefix + Message(e))
  }

  /** `save_prediction` as written. */
  function SaveAsWritten(combination: seq<int>, draws: seq<LottoDraw>, insert: InsertOutcome, ids: IdOutcome): Result<Cell>
  {
    match SaveRaised(combination, draws, insert, ids)
    case Err(e) => Err(RewrapAsWritten(e))
    case Ok(id) => Ok(id)
  }

  /**
   * As written, a refused INSERT raises a DataLoadError inside the `try`
   * block, which the generic `except` wraps again: the message carries the
   * prefix twice.
   */
  lemma StoreFailurePrefixedTwice(combination: seq<int>, ids: IdOutcome)
    requires IsDraw(combination)
    ensures SaveAsWritten(combination, [], Affected(Some(0)), ids)
         == Err(DataLoadError(SaveFailedPrefix + SaveFailedPrefix + DatabaseFailure))
  {
    assert SaveParams(combination, []).Ok?;
    assert SaveFailedPrefix + StoreFailedMessage == SaveFailedPrefix + SaveFailedPrefix + DatabaseFailure;
  }

  /** The `except` clauses corrected: the service's own DataLoadError passes unchanged too. */
  function Rewrap(e: Error): (r: Error)
    ensures e.ValidationError? || e.DataLoadError? ==> r == e
    ensures r.ValidationError? || r.DataLoadError?
  {
    if e.ValidationError? || e.DataLoadError? then e else DataLoadError(SaveFailedPrefix + Message(e))
  }

  /** `save_prediction` with the corrected `except` clauses. */
  function Save(combination: seq<int>, draws: seq<LottoDraw>, insert: InsertOutcome, ids: IdOutcome): Result<Cell>
  {
    match SaveRaised(combination, draws, insert, ids)
    case Err(e) => Err(Rewrap(e))
    case Ok(id) => Ok(id)
  }

  /**
   * A refused INSERT is reported once; invalid input is a ValidationError
   * whatever the database would do; every other failure is a DataLoadError;
   * and apart from the doubled prefix the corrected version agrees with the
   * code as written.
   */
  lemma SaveOutcomes(combination: seq<int>, draws: seq<LottoDraw>, insert: InsertOutcome, ids: IdOutcome,
                     insert2: InsertOutcome, ids2: IdOutcome)
    ensures SaveParams(combination, draws).Ok? && insert == Affected(Some(0)) ==>
      Save(combination, draws, insert, ids) == Err(DataLoadError(StoreFailedMessage))
    ensures SaveParams(combination, draws).Err? && SaveParams(combination, draws).error.ValidationError? ==>
      Save(combination, draws, insert, ids) == Save(combination, draws, insert2, ids2) == Err(SaveParams(combination, draws).error)
    ensures Save(combination, draws, insert, ids).Err? ==>
      Save(combination, draws, insert, ids).error.ValidationError? || Save(combination, draws, insert, ids).error.DataLoadError?
    ensures !(SaveRaised(combination, draws, insert, ids).Err? && SaveRaised(combination, draws, insert, ids).error.DataLoadError?) ==>
      Save(combination, draws, insert, ids) == SaveAsWritten(combination, draws, insert, ids)
  {
  }

  class AsyncDataService {
    var draws: seq<LottoDraw>
    var existingCombinations: set<seq<int>>

    function State(): DataState
      reads this
    {
      DataState(draws, existingCombinations)
    }

    constructor ()
      ensures State() == DataState([], {}) && Inv(State())
    {
      draws := [];
      existingCombinations := {};
    }

    /** `load_historical_data`, with the repository's answers as inputs. */
    method LoadHistoricalData(startNo: int, endNo: Option<int>, last: LastDrawFetch, fetched: RowsFetch)
      returns (r: Result<bool>)
      modifies this
      ensures (r, State()) == Load(old(State()), startNo, endNo, last, fetched)
    {
      if startNo <= 0 {
        return Err(ValidationError("시작 회차는 1 이상이어야 합니다"));
      }
      if endNo.Some? && endNo.value < startNo {
        return Err(ValidationError("종료 회차는 시작 회차보다 크거나 같아야 합니다"));
      }
      if endNo.None? {
        match last {
          case LastDrawRaised(e) =>
            return Err(e);
          case LastDrawRow(lastDrawData) =>
            if lastDrawData == map[] {
              return Ok(false);
            }
            if NoKey !in lastDrawData {
              return Err(KeyError(NoKey));
            }
        }
      }
      match fetched {
        case RowsRaised(e) =>
          return Err(e);
        case RowsFetched(rawData) =>
          if rawData == [] {
            return Ok(false);
          }
          var validDraws: seq<LottoDraw> := [];
          for i := 0 to |rawData|
            invariant validDraws == ValidDraws(rawData[..i])
            invariant State() == old(State())
          {
            var draw := FromDbRow(rawData[i]);
            if draw.Ok? {
              validDraws := validDraws + [draw.value];
            }
            assert rawData[..i + 1][..i] == rawData[..i];
          }
          assert rawData[..|rawData|] == rawData;
          if validDraws == [] {
            return Ok(false);
          }
          draws := validDraws;
          existingCombinations := set d | d in draws :: NumbersTuple(d);
          return Ok(true);
      }
    }

    /** `get_last_draw`: `None` without draws, otherwise the last one. */
    function GetLastDraw(): (r: Option<LottoDraw>)
      reads this
      ensures r.None? <==> draws == []
      ensures r.Some? ==> r.value == draws[|draws| - 1] && r.value in draws
    {
      if draws == [] then None else Some(draws[|draws| - 1])
    }

    /** `is_new_combination`: six numbers whose sorted tuple was never drawn. */
    function IsNewCombination(numbers: seq<int>): (r: bool)
      reads this
      ensures r <==> |numbers| == 6 && SortAsc(numbers) !in existingCombinations
    {
      if numbers == [] || |numbers| != 6 then false
      else SortAsc(numbers) !in existingCombinations
    }

    /** `get_all_winning_combinations`: each draw's numbers sorted, in draw order. */
    method GetAllWinningCombinations() returns (combinations: seq<seq<int>>)
      ensures |combinations| == |draws|
      ensures forall i :: 0 <= i < |draws| ==> combinations[i] == NumbersTuple(draws[i])
      ensures Inv(State()) ==> (set c | c in combinations) == existingCombinations
    {
      if draws == [] {
        return [];
      }
      combinations := [];
      for i := 0 to |draws|
        invariant |combinations| == i
        invariant forall j :: 0 <= j < i ==> combinations[j] == NumbersTuple(draws[j])
      {
        combinations := combinations + [SortAsc(draws[i].numbers)];
      }
      TuplesInDrawOrder(draws, combinations);
    }

    /** `save_prediction` on the current draws, with the database's answers as inputs. */
    method SavePrediction(combination: seq<int>, insert: InsertOutcome, ids: IdOutcome) returns (r: Result<Cell>)
      ensures r == Save(combination, draws, insert, ids)
    {
      var params := SaveParams(combination, draws);
      if params.Err? {
        return Err(Rewrap(params.error));
      }
      match insert {
        case InsertRaised(e) =>
          return Err(Rewrap(e));
        case Affected(count) =>
          if count.None? || count.value <= 0 {
            return Err(DataLoadError(StoreFailedMessage));
          }
      }
      match ids {
        case IdRaised(e) =>
          return Err(Rewrap(e));
        case IdRows(idResult) =>
          if idResult == [] {
            return Ok(IntCell(-1));
          }
          if "id" !in idResult[0] {
            return Err(Rewrap(KeyError("id")));
          }
          return Ok(idResult[0]["id"]);
      }
    }
  }

  /** The data service's answer is the duplicate checker's answer negated, when the checker loads the same tuples. */
  lemma IsNewAgreesWithChecker(ds: AsyncDataService, numbers: seq<int>, now: int)
    ensures ds.IsNewCombination(numbers)
         == !Query(EmptyCache, numbers, now, Snapshot(ds.existingCombinations)).0
  {
  }

  /** Every ordering of the same numbers is equally new. */
  lemma IsNewOrderFree(ds: AsyncDataService, a: seq<int>, b: seq<int>)
    requires multiset(a) == multiset(b)
    ensures ds.IsNewCombination(a) == ds.IsNewCombination(b)
  {
    SameLength(a, b);
    SortAscOfPermutation(a, b);
  }

  /** After a successful load, the last draw is the last valid fetched row. */
  lemma LastDrawAfterLoad(st: DataState, startNo: int, endNo: Option<int>, last: LastDrawFetch, fetched: RowsFetch)
    requires Load(st, startNo, endNo, last, fetched).0 == Ok(true)
    ensures var ds := Load(st, startNo, endNo, last, fetched).1.draws;
      exists i :: 0 <= i < |fetched.rows| && DrawOfRow(fetched.rows[i]) == Ok(ds[|ds| - 1])
  {
    LoadTrueReplacesState(st, startNo, endNo, last, fetched);
    LastValidComesFromRow(fetched.rows);
  }

  lemma {:induction false} LastValidComesFromRow(rows: seq<Row>)
    requires ValidDraws(rows) != []
    ensures var ds := ValidDraws(rows);
      exists i :: 0 <= i < |rows| && DrawOfRow(rows[i]) == Ok(ds[|ds| - 1])
  {
    var last := rows[|rows| - 1];
    if DrawOfRow(last).Ok? {
      assert DrawOfRow(rows[|rows| - 1]) == Ok(ValidDraws(rows)[|ValidDraws(rows)| - 1]);
    } else {
      var init := rows[..|rows| - 1];
      LastValidComesFromRow(init);
      var i :| 0 <= i < |init| && DrawOfRow(init[i]) == Ok(ValidDraws(init)[|ValidDraws(init)| - 1]);
      assert rows[i] == init[i];
    }
  }
}

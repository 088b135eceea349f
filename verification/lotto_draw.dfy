/**
 * `LottoDraw` (models/lotto_draw.py): one past draw, built from a database
 * row by `from_db_row`, which checks the draw number key, the six number
 * columns "1".."6", their type and range, and repeats.
 */
module LottoDraws {
  import opened Errors
  import opened Combos
  import opened Text

  /** A column value as the database driver returns it. */
  datatype Cell = IntCell(i: int) | TextCell(s: string) | NullCell

  /** A result row: column name to value. */
  type Row = map<string, Cell>

  /** Python's `str()` of a cell value. */
  function CellText(c: Cell): string
  {
    match c
    case IntCell(i) => IntToString(i)
    case TextCell(s) => s
    case NullCell => "None"
  }

  /**
   * The dataclass without `draw_date`. `draw_no` and `bonus` are stored as
   * the row gives them; a missing `bonus` column is `None`.
   */
  datatype LottoDraw = LottoDraw(drawNo: Cell, numbers: seq<int>, bonus: Cell)

  const NoKey: string := "no"
  const BonusKey: string := "bonus"

  /** The name of number column `i`, `str(i)`. */
  function Column(i: int): string
  {
    IntToString(i)
  }

  /** The first of the columns 1..n that the row lacks. */
  function FirstMissing(row: Row, n: nat): (r: Option<nat>)
    ensures r.None? <==> forall j :: 1 <= j <= n ==> Column(j) in row
    ensures r.Some? ==> 1 <= r.value <= n && Column(r.value) !in row
    ensures r.Some? ==> forall j :: 1 <= j < r.value ==> Column(j) in row
  {
    if n == 0 then None
    else match FirstMissing(row, n - 1)
      case Some(j) => Some(j)
      case None => if Column(n) !in row then Some(n) else None
  }

  /** A number column that holds an integer in 1..45. */
  predicate GoodCell(c: Cell)
  {
    c.IntCell? && MinNumber <= c.i <= MaxNumber
  }

  /**
   * The validation loop over columns 1..n: the numbers in column order, or
   * the error for the first column that is not an integer or out of range.
   */
  function ReadColumns(row: Row, n: nat): (r: Result<seq<int>>)
    requires forall j :: 1 <= j <= n ==> Column(j) in row
    ensures r.Ok? <==> forall j :: 1 <= j <= n ==> GoodCell(row[Column(j)])
    ensures r.Ok? ==> |r.value| == n && forall j :: 1 <= j <= n ==> row[Column(j)] == IntCell(r.value[j - 1])
    ensures r.Err? ==> r.error.ValidationError?
  {
    if n == 0 then Ok([])
    else match ReadColumns(row, n - 1)
      case Err(e) => Err(e)
      case Ok(numbers) =>
        match row[Column(n)]
        case IntCell(num) =>
          if num < 1 || num > 45 then
            Err(ValidationError(Column(n) + "번 필드가 유효한 범위(1-45)를 벗어났습니다: " + IntToString(num)))
          else Ok(numbers + [num])
        case other => Err(ValidationError(Column(n) + "번 필드가 정수가 아닙니다: " + CellText(other)))
  }

  /** Once a column fails, the loop's result is that column's error. */
  lemma {:induction false} ReadColumnsErrorStays(row: Row, i: nat, n: nat)
    requires i <= n && forall j :: 1 <= j <= n ==> Column(j) in row
    requires ReadColumns(row, i).Err?
    ensures ReadColumns(row, n) == ReadColumns(row, i)
    decreases n - i
  {
    if i < n {
      ReadColumnsErrorStays(row, i, n - 1);
    }
  }

  /** What `from_db_row` returns or raises for a row. */
  function DrawOfRow(row: Row): Result<LottoDraw>
  {
    if NoKey !in row then Err(ValidationError("회차 번호(no) 필드가 없습니다"))
    else match FirstMissing(row, 6)
      case Some(i) => Err(ValidationError(Column(i) + "번 필드가 없습니다"))
      case None =>
        match ReadColumns(row, 6)
        case Err(e) => Err(e)
        case Ok(numbers) =>
          if |SetOf(numbers)| != 6 then Err(ValidationError("중복된 번호가 있습니다: " + ListRepr(numbers)))
          else Ok(LottoDraw(row[NoKey], numbers, if BonusKey in row then row[BonusKey] else NullCell))
  }

  /** `from_db_row`: the key checks, then the loop that validates and collects the numbers. */
  method FromDbRow(row: Row) returns (r: Result<LottoDraw>)
    ensures r == DrawOfRow(row)
  {
    if NoKey !in row {
      return Err(ValidationError("회차 번호(no) 필드가 없습니다"));
    }
    for i := 1 to 7
      invariant FirstMissing(row, i - 1).None?
    {
      if Column(i) !in row {
        return Err(ValidationError(Column(i) + "번 필드가 없습니다"));
      }
    }
    var numbers: seq<int> := [];
    for i := 1 to 7
      invariant ReadColumns(row, i - 1) == Ok(numbers)
    {
      var num := row[Column(i)];
      if !num.IntCell? || num.i < 1 || num.i > 45 {
        ReadColumnsErrorStays(row, i, 6);
      }
      if !num.IntCell? {
        return Err(ValidationError(Column(i) + "번 필드가 정수가 아닙니다: " + CellText(num)));
      }
      if num.i < 1 || num.i > 45 {
        return Err(ValidationError(Column(i) + "번 필드가 유효한 범위(1-45)를 벗어났습니다: " + IntToString(num.i)));
      }
      numbers := numbers + [num.i];
    }
    if |SetOf(numbers)| != 6 {
      return Err(ValidationError("중복된 번호가 있습니다: " + ListRepr(numbers)));
    }
    var bonus := if BonusKey in row then row[BonusKey] else NullCell;
    return Ok(LottoDraw(row[NoKey], numbers, bonus));
  }

  /**
   * A row is accepted exactly when it has the draw number, all six number
   * columns hold integers in 1..45, and no two of them are equal.
   */
  lemma DrawOfRowAccepts(row: Row)
    ensures DrawOfRow(row).Ok? <==>
      && NoKey in row
      && (forall j :: 1 <= j <= 6 ==> Column(j) in row && GoodCell(row[Column(j)]))
      && (forall a, b :: 1 <= a < b <= 6 ==> row[Column(a)] != row[Column(b)])
  {
    if NoKey in row && FirstMissing(row, 6).None? && ReadColumns(row, 6).Ok? {
      var numbers := ReadColumns(row, 6).value;
      DistinctIffSetSize(numbers);
      assert Distinct(numbers) <==> forall a, b :: 1 <= a < b <= 6 ==> row[Column(a)] != row[Column(b)] by {
        if Distinct(numbers) {
          forall a, b | 1 <= a < b <= 6 ensures row[Column(a)] != row[Column(b)] {
            assert numbers[a - 1] != numbers[b - 1];
          }
        }
        if forall a, b :: 1 <= a < b <= 6 ==> row[Column(a)] != row[Column(b)] {
          forall a, b | 0 <= a < b < 6 ensures numbers[a] != numbers[b] {
            assert row[Column(a + 1)] != row[Column(b + 1)];
          }
        }
      }
    }
  }

  /**
   * An accepted row gives six distinct numbers in 1..45 in column order
   * (not sorted), the row's draw number and its bonus or `None`.
   */
  lemma DrawOfRowFields(row: Row)
    requires DrawOfRow(row).Ok?
    ensures var d := DrawOfRow(row).value;
      && IsDraw(d.numbers)
      && (forall j :: 1 <= j <= 6 ==> row[Column(j)] == IntCell(d.numbers[j - 1]))
      && d.drawNo == row[NoKey]
      && d.bonus == (if BonusKey in row then row[BonusKey] else NullCell)
  {
    var numbers := DrawOfRow(row).value.numbers;
    DistinctIffSetSize(numbers);
    forall j | 0 <= j < 6 ensures MinNumber <= numbers[j] <= MaxNumber {
      assert GoodCell(row[Column(j + 1)]) && row[Column(j + 1)] == IntCell(numbers[j]);
    }
  }

  /** Without the draw number key nothing else is looked at. */
  lemma MissingNoRejected(row: Row)
    requires NoKey !in row
    ensures DrawOfRow(row) == Err(ValidationError("회차 번호(no) 필드가 없습니다"))
  {
  }

  /** A missing number column is reported by the first such column, before any value is checked. */
  lemma MissingColumnRejected(row: Row, i: nat)
    requires NoKey in row && 1 <= i <= 6 && Column(i) !in row
    requires forall j :: 1 <= j < i ==> Column(j) in row
    ensures DrawOfRow(row) == Err(ValidationError(Column(i) + "번 필드가 없습니다"))
  {
    var r := FirstMissing(row, 6);
  }

  /** Every refusal of `from_db_row` is a ValidationError. */
  lemma DrawOfRowErrors(row: Row)
    ensures DrawOfRow(row).Err? ==> DrawOfRow(row).error.ValidationError?
  {
  }

  /**
   * The first number column that is not an integer, or is out of 1..45, is
   * reported by name with its value, before repeats are looked at.
   */
  lemma BadCellRejected(row: Row, i: nat)
    requires NoKey in row && forall j :: 1 <= j <= 6 ==> Column(j) in row
    requires 1 <= i <= 6 && !GoodCell(row[Column(i)])
    requires forall j :: 1 <= j < i ==> GoodCell(row[Column(j)])
    ensures var c := row[Column(i)];
      DrawOfRow(row) == Err(ValidationError(
        if c.IntCell? then Column(i) + "번 필드가 유효한 범위(1-45)를 벗어났습니다: " + IntToString(c.i)
        else Column(i) + "번 필드가 정수가 아닙니다: " + CellText(c)))
  {
    assert ReadColumns(row, i - 1).Ok?;
    ReadColumnsErrorStays(row, i, 6);
  }

  /** Six good cells with a repeat are refused with the numbers in column order. */
  lemma RepeatedNumbersRejected(row: Row, numbers: seq<int>)
    requires NoKey in row && |numbers| == 6 && !Distinct(numbers)
    requires forall j :: 1 <= j <= 6 ==> Column(j) in row && row[Column(j)] == IntCell(numbers[j - 1])
    requires forall j :: 0 <= j < 6 ==> MinNumber <= numbers[j] <= MaxNumber
    ensures DrawOfRow(row) == Err(ValidationError("중복된 번호가 있습니다: " + ListRepr(numbers)))
  {
    assert forall j :: 1 <= j <= 6 ==> GoodCell(row[Column(j)]) by {
      forall j | 1 <= j <= 6 ensures GoodCell(row[Column(j)]) {
        assert row[Column(j)] == IntCell(numbers[j - 1]);
      }
    }
    var read := ReadColumns(row, 6).value;
    assert read == numbers by {
      forall j | 0 <= j < 6 ensures read[j] == numbers[j] {
        assert row[Column(j + 1)] == IntCell(read[j]) && row[Column(j + 1)] == IntCell(numbers[j]);
      }
    }
    DistinctIffSetSize(numbers);
  }

  /** `get_numbers_tuple`: the numbers in ascending order. */
  function NumbersTuple(d: LottoDraw): (t: seq<int>)
    ensures Sorted(t) && |t| == |d.numbers|
  {
    SortAsc(d.numbers)
  }

  /** The tuple holds exactly the draw's numbers; for a valid draw it is a strictly ascending combination. */
  lemma NumbersTupleIsSortedPermutation(d: LottoDraw)
    ensures multiset(NumbersTuple(d)) == multiset(d.numbers)
    ensures IsDraw(d.numbers) ==> IsCombination(NumbersTuple(d)) && StrictlyAscending(NumbersTuple(d))
  {
    SortAscPermutes(d.numbers);
    if IsDraw(d.numbers) {
      SortAscOfDraw(d.numbers);
    }
  }

  /** Draws with the same numbers in any order have equal tuples. */
  lemma NumbersTupleOrderFree(d1: LottoDraw, d2: LottoDraw)
    requires multiset(d1.numbers) == multiset(d2.numbers)
    ensures NumbersTuple(d1) == NumbersTuple(d2)
  {
    SortAscOfPermutation(d1.numbers, d2.numbers);
  }
}

/**
 * The eight-row frame of the fillna tests, and what `fillna` gives on it.
 *
 * Columns A to E hold integers, F strings and G dates (midnight of a day of January 2022,
 * in seconds since 1970); the index runs from 0 to 7. Every column is written out as a
 * sequence of its own so that the fills below can be evaluated on it.
 */
module DataFrameFillExamples {
  import opened Wrappers
  import opened DataFrameFill

  function Names(): seq<string> { ["A", "B", "C", "D", "E", "F", "G"] }
  function Row0(): Row { Row(0, [None, None, None, None, None, Some(StrVal("a")), Some(TimeVal(1640995200))]) }
  function Row1(): Row { Row(1, [Some(IntVal(3)), Some(IntVal(4)), None, Some(IntVal(1)), Some(IntVal(1)), None, Some(TimeVal(1641081600))]) }
  function Row2(): Row { Row(2, [None, Some(IntVal(3)), None, Some(IntVal(4)), None, Some(StrVal("b")), None]) }
  function Row3(): Row { Row(3, [None, Some(IntVal(2)), None, Some(IntVal(0)), None, Some(StrVal("c")), None]) }
  function Row4(): Row { Row(4, [None, None, None, None, Some(IntVal(2)), None, None]) }
  function Row5(): Row { Row(5, [Some(IntVal(1)), None, None, None, None, Some(StrVal("d")), Some(TimeVal(1641340800))]) }
  function Row6(): Row { Row(6, [None, None, None, None, Some(IntVal(3)), Some(StrVal("e")), Some(TimeVal(1641427200))]) }
  function Row7(): Row { Row(7, [None, None, Some(IntVal(1)), None, None, Some(StrVal("f")), None]) }

  function DataRows(): seq<Row>
  {
    [Row0(), Row1(), Row2(), Row3(), Row4(), Row5(), Row6(), Row7()]
  }

  /** The frame as loaded: not sorted on anything. */
  function Data(): Frame { Frame(Names(), DataRows(), []) }

  /** The frame after `sort_index()`; the rows as loaded are already in index order. */
  function ByIndex(): Frame { Frame(Names(), DataRows(), [IndexKey(true)]) }

  /** `sort_by=['A', 'B', 'C'], ascending=[False, True, False]`. */
  function KeysABC(): seq<SortKey> { [ColumnKey("A", false), ColumnKey("B", true), ColumnKey("C", false)] }

  function ResolvedABC(): seq<Resolved> { [OnColumn(0, false), OnColumn(1, true), OnColumn(2, false)] }

  /** The rows in the order of `KeysABC`. */
  function RowsByABC(): seq<Row>
  {
    [Row1(), Row5(), Row3(), Row2(), Row7(), Row0(), Row4(), Row6()]
  }

  /** Columns A to G, top to bottom, as loaded and in the order of `KeysABC`. */
  function ColumnA(): seq<Cell> { [None, Some(IntVal(3)), None, None, None, Some(IntVal(1)), None, None] }

  function ColumnB(): seq<Cell> { [None, Some(IntVal(4)), Some(IntVal(3)), Some(IntVal(2)), None, None, None, None] }

  function ColumnC(): seq<Cell> { [None, None, None, None, None, None, None, Some(IntVal(1))] }

  function ColumnD(): seq<Cell> { [None, Some(IntVal(1)), Some(IntVal(4)), Some(IntVal(0)), None, None, None, None] }

  function ColumnE(): seq<Cell> { [None, Some(IntVal(1)), None, None, Some(IntVal(2)), None, Some(IntVal(3)), None] }

  function ColumnF(): seq<Cell> { [Some(StrVal("a")), None, Some(StrVal("b")), Some(StrVal("c")), None, Some(StrVal("d")), Some(StrVal("e")), Some(StrVal("f"))] }

  function ColumnG(): seq<Cell> { [Some(TimeVal(1640995200)), Some(TimeVal(1641081600)), None, None, None, Some(TimeVal(1641340800)), Some(TimeVal(1641427200)), None] }

  function SortedA(): seq<Cell> { [Some(IntVal(3)), Some(IntVal(1)), None, None, None, None, None, None] }

  function SortedB(): seq<Cell> { [Some(IntVal(4)), None, Some(IntVal(2)), Some(IntVal(3)), None, None, None, None] }

  function SortedC(): seq<Cell> { [None, None, None, None, Some(IntVal(1)), None, None, None] }

  function SortedD(): seq<Cell> { [Some(IntVal(1)), None, Some(IntVal(0)), Some(IntVal(4)), None, None, None, None] }

  function SortedE(): seq<Cell> { [Some(IntVal(1)), None, None, None, None, None, Some(IntVal(2)), Some(IntVal(3))] }

  function SortedF(): seq<Cell> { [None, Some(StrVal("d")), Some(StrVal("c")), Some(StrVal("b")), Some(StrVal("f")), Some(StrVal("a")), None, Some(StrVal("e"))] }

  function SortedG(): seq<Cell> { [Some(TimeVal(1641081600)), Some(TimeVal(1641340800)), None, None, None, Some(TimeVal(1640995200)), None, Some(TimeVal(1641427200))] }

  /** The columns of the loaded frame are the sequences above. */
  lemma DataColumns(c: nat)
    requires c < 7
    ensures ColumnOf(DataRows(), c) == [ColumnA(), ColumnB(), ColumnC(), ColumnD(), ColumnE(), ColumnF(), ColumnG()][c]
  {
  }

  /** The columns of the rows in `KeysABC` order are the sorted sequences above. */
  lemma SortedColumns(c: nat)
    requires c < 7
    ensures ColumnOf(RowsByABC(), c) == [SortedA(), SortedB(), SortedC(), SortedD(), SortedE(), SortedF(), SortedG()][c]
  {
  }

  /** A forward fill is known once the nearest known cell of every row is. */
  lemma ForwardFillIs(col: seq<Cell>, expected: seq<Cell>)
    requires |col| == |expected|
    requires forall k | 0 <= k < |col| :: LastKnown(col, k, None) == expected[k]
    ensures ForwardFill(col) == expected
  {
    ForwardFillIsLastKnown(col);
  }

  /** A backward fill is known once the next known cell of every row is. */
  lemma BackwardFillIs(col: seq<Cell>, expected: seq<Cell>)
    requires |col| == |expected|
    requires forall k | 0 <= k < |col| :: NextKnown(col, k) == expected[k]
    ensures BackwardFill(col) == expected
  {
    forall k | 0 <= k < |col|
      ensures BackwardFill(col)[k] == expected[k]
    {
      BackwardFillIsNextKnown(col, k);
    }
  }

  /** `ffill` of column A along the index. */
  lemma ForwardFillByIndexA()
    ensures ForwardFill(ColumnA()) ==
            [None, Some(IntVal(3)), Some(IntVal(3)), Some(IntVal(3)), Some(IntVal(3)), Some(IntVal(1)), Some(IntVal(1)), Some(IntVal(1))]
  {
    var col, expected := ColumnA(), [None, Some(IntVal(3)), Some(IntVal(3)), Some(IntVal(3)), Some(IntVal(3)), Some(IntVal(1)), Some(IntVal(1)), Some(IntVal(1))];
    assert LastKnown(col, 0, None) == expected[0];
    assert LastKnown(col, 1, None) == expected[1];
    assert LastKnown(col, 2, None) == expected[2];
    assert LastKnown(col, 3, None) == expected[3];
    assert LastKnown(col, 4, None) == expected[4];
    assert LastKnown(col, 5, None) == expected[5];
    assert LastKnown(col, 6, None) == expected[6];
    assert LastKnown(col, 7, None) == expected[7];
    ForwardFillIs(col, expected);
  }

  /** `bfill` of column A along the index. */
  lemma BackwardFillByIndexA()
    ensures BackwardFill(ColumnA()) ==
            [Some(IntVal(3)), Some(IntVal(3)), Some(IntVal(1)), Some(IntVal(1)), Some(IntVal(1)), Some(IntVal(1)), None, None]
  {
    var col, expected := ColumnA(), [Some(IntVal(3)), Some(IntVal(3)), Some(IntVal(1)), Some(IntVal(1)), Some(IntVal(1)), Some(IntVal(1)), None, None];
    assert NextKnown(col, 0) == expected[0];
    assert NextKnown(col, 1) == expected[1];
    assert NextKnown(col, 2) == expected[2];
    assert NextKnown(col, 3) == expected[3];
    assert NextKnown(col, 4) == expected[4];
    assert NextKnown(col, 5) == expected[5];
    assert NextKnown(col, 6) == expected[6];
    assert NextKnown(col, 7) == expected[7];
    BackwardFillIs(col, expected);
  }

  /** `ffill` of column B along the index. */
  lemma ForwardFillByIndexB()
    ensures ForwardFill(ColumnB()) ==
            [None, Some(IntVal(4)), Some(IntVal(3)), Some(IntVal(2)), Some(IntVal(2)), Some(IntVal(2)), Some(IntVal(2)), Some(IntVal(2))]
  {
    var col, expected := ColumnB(), [None, Some(IntVal(4)), Some(IntVal(3)), Some(IntVal(2)), Some(IntVal(2)), Some(IntVal(2)), Some(IntVal(2)), Some(IntVal(2))];
    assert LastKnown(col, 0, None) == expected[0];
    assert LastKnown(col, 1, None) == expected[1];
    assert LastKnown(col, 2, None) == expected[2];
    assert LastKnown(col, 3, None) == expected[3];
    assert LastKnown(col, 4, None) == expected[4];
    assert LastKnown(col, 5, None) == expected[5];
    assert LastKnown(col, 6, None) == expected[6];
    assert LastKnown(col, 7, None) == expected[7];
    ForwardFillIs(col, expected);
  }

  /** `bfill` of column B along the index. */
  lemma BackwardFillByIndexB()
    ensures BackwardFill(ColumnB()) ==
            [Some(IntVal(4)), Some(IntVal(4)), Some(IntVal(3)), Some(IntVal(2)), None, None, None, None]
  {
    var col, expected := ColumnB(), [Some(IntVal(4)), Some(IntVal(4)), Some(IntVal(3)), Some(IntVal(2)), None, None, None, None];
    assert NextKnown(col, 0) == expected[0];
    assert NextKnown(col, 1) == expected[1];
    assert NextKnown(col, 2) == expected[2];
    assert NextKnown(col, 3) == expected[3];
    assert NextKnown(col, 4) == expected[4];
    assert NextKnown(col, 5) == expected[5];
    assert NextKnown(col, 6) == expected[6];
    assert NextKnown(col, 7) == expected[7];
    BackwardFillIs(col, expected);
  }

  /** `ffill` of column C along the index. */
  lemma ForwardFillByIndexC()
    ensures ForwardFill(ColumnC()) ==
            [None, None, None, None, None, None, None, Some(IntVal(1))]
  {
    var col, expected := ColumnC(), [None, None, None, None, None, None, None, Some(IntVal(1))];
    assert LastKnown(col, 0, None) == expected[0];
    assert LastKnown(col, 1, None) == expected[1];
    assert LastKnown(col, 2, None) == expected[2];
    assert LastKnown(col, 3, None) == expected[3];
    assert LastKnown(col, 4, None) == expected[4];
    assert LastKnown(col, 5, None) == expected[5];
    assert LastKnown(col, 6, None) == expected[6];
    assert LastKnown(col, 7, None) == expected[7];
    ForwardFillIs(col, expected);
  }

  /** `bfill` of column C along the index. */
  lemma BackwardFillByIndexC()
    ensures BackwardFill(ColumnC()) ==
            [Some(IntVal(1)), Some(IntVal(1)), Some(IntVal(1)), Some(IntVal(1)), Some(IntVal(1)), Some(IntVal(1)), Some(IntVal(1)), Some(IntVal(1))]
  {
    var col, expected := ColumnC(), [Some(IntVal(1)), Some(IntVal(1)), Some(IntVal(1)), Some(IntVal(1)), Some(IntVal(1)), Some(IntVal(1)), Some(IntVal(1)), Some(IntVal(1))];
    assert NextKnown(col, 0) == expected[0];
    assert NextKnown(col, 1) == expected[1];
    assert NextKnown(col, 2) == expected[2];
    assert NextKnown(col, 3) == expected[3];
    assert NextKnown(col, 4) == expected[4];
    assert NextKnown(col, 5) == expected[5];
    assert NextKnown(col, 6) == expected[6];
    assert NextKnown(col, 7) == expected[7];
    BackwardFillIs(col, expected);
  }

  /** `ffill` of column D along the index. */
  lemma ForwardFillByIndexD()
    ensures ForwardFill(ColumnD()) ==
            [None, Some(IntVal(1)), Some(IntVal(4)), Some(IntVal(0)), Some(IntVal(0)), Some(IntVal(0)), Some(IntVal(0)), Some(IntVal(0))]
  {
    var col, expected := ColumnD(), [None, Some(IntVal(1)), Some(IntVal(4)), Some(IntVal(0)), Some(IntVal(0)), Some(IntVal(0)), Some(IntVal(0)), Some(IntVal(0))];
    assert LastKnown(col, 0, None) == expected[0];
    assert LastKnown(col, 1, None) == expected[1];
    assert LastKnown(col, 2, None) == expected[2];
    assert LastKnown(col, 3, None) == expected[3];
    assert LastKnown(col, 4, None) == expected[4];
    assert LastKnown(col, 5, None) == expected[5];
    assert LastKnown(col, 6, None) == expected[6];
    assert LastKnown(col, 7, None) == expected[7];
    ForwardFillIs(col, expected);
  }

  /** `bfill` of column D along the index. */
  lemma BackwardFillByIndexD()
    ensures BackwardFill(ColumnD()) ==
            [Some(IntVal(1)), Some(IntVal(1)), Some(IntVal(4)), Some(IntVal(0)), None, None, None, None]
  {
    var col, expected := ColumnD(), [Some(IntVal(1)), Some(IntVal(1)), Some(IntVal(4)), Some(IntVal(0)), None, None, None, None];
    assert NextKnown(col, 0) == expected[0];
    assert NextKnown(col, 1) == expected[1];
    assert NextKnown(col, 2) == expected[2];
    assert NextKnown(col, 3) == expected[3];
    assert NextKnown(col, 4) == expected[4];
    assert NextKnown(col, 5) == expected[5];
    assert NextKnown(col, 6) == expected[6];
    assert NextKnown(col, 7) == expected[7];
    BackwardFillIs(col, expected);
  }

  /** `ffill` of column E along the index. */
  lemma ForwardFillByIndexE()
    ensures ForwardFill(ColumnE()) ==
            [None, Some(IntVal(1)), Some(IntVal(1)), Some(IntVal(1)), Some(IntVal(2)), Some(IntVal(2)), Some(IntVal(3)), Some(IntVal(3))]
  {
    var col, expected := ColumnE(), [None, Some(IntVal(1)), Some(IntVal(1)), Some(IntVal(1)), Some(IntVal(2)), Some(IntVal(2)), Some(IntVal(3)), Some(IntVal(3))];
    assert LastKnown(col, 0, None) == expected[0];
    assert LastKnown(col, 1, None) == expected[1];
    assert LastKnown(col, 2, None) == expected[2];
    assert LastKnown(col, 3, None) == expected[3];
    assert LastKnown(col, 4, None) == expected[4];
    assert LastKnown(col, 5, None) == expected[5];
    assert LastKnown(col, 6, None) == expected[6];
    assert LastKnown(col, 7, None) == expected[7];
    ForwardFillIs(col, expected);
  }

  /** `bfill` of column E along the index. */
  lemma BackwardFillByIndexE()
    ensures BackwardFill(ColumnE()) ==
            [Some(IntVal(1)), Some(IntVal(1)), Some(IntVal(2)), Some(IntVal(2)), Some(IntVal(2)), Some(IntVal(3)), Some(IntVal(3)), None]
  {
    var col, expected := ColumnE(), [Some(IntVal(1)), Some(IntVal(1)), Some(IntVal(2)), Some(IntVal(2)), Some(IntVal(2)), Some(IntVal(3)), Some(IntVal(3)), None];
    assert NextKnown(col, 0) == expected[0];
    assert NextKnown(col, 1) == expected[1];
    assert NextKnown(col, 2) == expected[2];
    assert NextKnown(col, 3) == expected[3];
    assert NextKnown(col, 4) == expected[4];
    assert NextKnown(col, 5) == expected[5];
    assert NextKnown(col, 6) == expected[6];
    assert NextKnown(col, 7) == expected[7];
    BackwardFillIs(col, expected);
  }

  /** `ffill` of column F along the index. */
  lemma ForwardFillByIndexF()
    ensures ForwardFill(ColumnF()) ==
            [Some(StrVal("a")), Some(StrVal("a")), Some(StrVal("b")), Some(StrVal("c")), Some(StrVal("c")), Some(StrVal("d")), Some(StrVal("e")), Some(StrVal("f"))]
  {
    var col, expected := ColumnF(), [Some(StrVal("a")), Some(StrVal("a")), Some(StrVal("b")), Some(StrVal("c")), Some(StrVal("c")), Some(StrVal("d")), Some(StrVal("e")), Some(StrVal("f"))];
    assert LastKnown(col, 0, None) == expected[0];
    assert LastKnown(col, 1, None) == expected[1];
    assert LastKnown(col, 2, None) == expected[2];
    assert LastKnown(col, 3, None) == expected[3];
    assert LastKnown(col, 4, None) == expected[4];
    assert LastKnown(col, 5, None) == expected[5];
    assert LastKnown(col, 6, None) == expected[6];
    assert LastKnown(col, 7, None) == expected[7];
    ForwardFillIs(col, expected);
  }

  /** `bfill` of column F along the index. */
  lemma BackwardFillByIndexF()
    ensures BackwardFill(ColumnF()) ==
            [Some(StrVal("a")), Some(StrVal("b")), Some(StrVal("b")), Some(StrVal("c")), Some(StrVal("d")), Some(StrVal("d")), Some(StrVal("e")), Some(StrVal("f"))]
  {
    var col, expected := ColumnF(), [Some(StrVal("a")), Some(StrVal("b")), Some(StrVal("b")), Some(StrVal("c")), Some(StrVal("d")), Some(StrVal("d")), Some(StrVal("e")), Some(StrVal("f"))];
    assert NextKnown(col, 0) == expected[0];
    assert NextKnown(col, 1) == expected[1];
    assert NextKnown(col, 2) == expected[2];
    assert NextKnown(col, 3) == expected[3];
    assert NextKnown(col, 4) == expected[4];
    assert NextKnown(col, 5) == expected[5];
    assert NextKnown(col, 6) == expected[6];
    assert NextKnown(col, 7) == expected[7];
    BackwardFillIs(col, expected);
  }

  /** `ffill` of column G along the index. */
  lemma ForwardFillByIndexG()
    ensures ForwardFill(ColumnG()) ==
            [Some(TimeVal(1640995200)), Some(TimeVal(1641081600)), Some(TimeVal(1641081600)), Some(TimeVal(1641081600)), Some(TimeVal(1641081600)), Some(TimeVal(1641340800)), Some(TimeVal(1641427200)), Some(TimeVal(1641427200))]
  {
    var col, expected := ColumnG(), [Some(TimeVal(1640995200)), Some(TimeVal(1641081600)), Some(TimeVal(1641081600)), Some(TimeVal(1641081600)), Some(TimeVal(1641081600)), Some(TimeVal(1641340800)), Some(TimeVal(1641427200)), Some(TimeVal(1641427200))];
    assert LastKnown(col, 0, None) == expected[0];
    assert LastKnown(col, 1, None) == expected[1];
    assert LastKnown(col, 2, None) == expected[2];
    assert LastKnown(col, 3, None) == expected[3];
    assert LastKnown(col, 4, None) == expected[4];
    assert LastKnown(col, 5, None) == expected[5];
    assert LastKnown(col, 6, None) == expected[6];
    assert LastKnown(col, 7, None) == expected[7];
    ForwardFillIs(col, expected);
  }

  /** `bfill` of column G along the index. */
  lemma BackwardFillByIndexG()
    ensures BackwardFill(ColumnG()) ==
            [Some(TimeVal(1640995200)), Some(TimeVal(1641081600)), Some(TimeVal(1641340800)), Some(TimeVal(1641340800)), Some(TimeVal(1641340800)), Some(TimeVal(1641340800)), Some(TimeVal(1641427200)), None]
  {
    var col, expected := ColumnG(), [Some(TimeVal(1640995200)), Some(TimeVal(1641081600)), Some(TimeVal(1641340800)), Some(TimeVal(1641340800)), Some(TimeVal(1641340800)), Some(TimeVal(1641340800)), Some(TimeVal(1641427200)), None];
    assert NextKnown(col, 0) == expected[0];
    assert NextKnown(col, 1) == expected[1];
    assert NextKnown(col, 2) == expected[2];
    assert NextKnown(col, 3) == expected[3];
    assert NextKnown(col, 4) == expected[4];
    assert NextKnown(col, 5) == expected[5];
    assert NextKnown(col, 6) == expected[6];
    assert NextKnown(col, 7) == expected[7];
    BackwardFillIs(col, expected);
  }

  /** `ffill` of column A along `KeysABC`. */
  lemma ForwardFillByABCA()
    ensures ForwardFill(SortedA()) ==
            [Some(IntVal(3)), Some(IntVal(1)), Some(IntVal(1)), Some(IntVal(1)), Some(IntVal(1)), Some(IntVal(1)), Some(IntVal(1)), Some(IntVal(1))]
  {
    var col, expected := SortedA(), [Some(IntVal(3)), Some(IntVal(1)), Some(IntVal(1)), Some(IntVal(1)), Some(IntVal(1)), Some(IntVal(1)), Some(IntVal(1)), Some(IntVal(1))];
    assert LastKnown(col, 0, None) == expected[0];
    assert LastKnown(col, 1, None) == expected[1];
    assert LastKnown(col, 2, None) == expected[2];
    assert LastKnown(col, 3, None) == expected[3];
    assert LastKnown(col, 4, None) == expected[4];
    assert LastKnown(col, 5, None) == expected[5];
    assert LastKnown(col, 6, None) == expected[6];
    assert LastKnown(col, 7, None) == expected[7];
    ForwardFillIs(col, expected);
  }

  /** `bfill` of column A along `KeysABC`. */
  lemma BackwardFillByABCA()
    ensures BackwardFill(SortedA()) ==
            [Some(IntVal(3)), Some(IntVal(1)), None, None, None, None, None, None]
  {
    var col, expected := SortedA(), [Some(IntVal(3)), Some(IntVal(1)), None, None, None, None, None, None];
    assert NextKnown(col, 0) == expected[0];
    assert NextKnown(col, 1) == expected[1];
    assert NextKnown(col, 2) == expected[2];
    assert NextKnown(col, 3) == expected[3];
    assert NextKnown(col, 4) == expected[4];
    assert NextKnown(col, 5) == expected[5];
    assert NextKnown(col, 6) == expected[6];
    assert NextKnown(col, 7) == expected[7];
    BackwardFillIs(col, expected);
  }

  /** `ffill` of column B along `KeysABC`. */
  lemma ForwardFillByABCB()
    ensures ForwardFill(SortedB()) ==
            [Some(IntVal(4)), Some(IntVal(4)), Some(IntVal(2)), Some(IntVal(3)), Some(IntVal(3)), Some(IntVal(3)), Some(IntVal(3)), Some(IntVal(3))]
  {
    var col, expected := SortedB(), [Some(IntVal(4)), Some(IntVal(4)), Some(IntVal(2)), Some(IntVal(3)), Some(IntVal(3)), Some(IntVal(3)), Some(IntVal(3)), Some(IntVal(3))];
    assert LastKnown(col, 0, None) == expected[0];
    assert LastKnown(col, 1, None) == expected[1];
    assert LastKnown(col, 2, None) == expected[2];
    assert LastKnown(col, 3, None) == expected[3];
    assert LastKnown(col, 4, None) == expected[4];
    assert LastKnown(col, 5, None) == expected[5];
    assert LastKnown(col, 6, None) == expected[6];
    assert LastKnown(col, 7, None) == expected[7];
    ForwardFillIs(col, expected);
  }

  /** `bfill` of column B along `KeysABC`. */
  lemma BackwardFillByABCB()
    ensures BackwardFill(SortedB()) ==
            [Some(IntVal(4)), Some(IntVal(2)), Some(IntVal(2)), Some(IntVal(3)), None, None, None, None]
  {
    var col, expected := SortedB(), [Some(IntVal(4)), Some(IntVal(2)), Some(IntVal(2)), Some(IntVal(3)), None, None, None, None];
    assert NextKnown(col, 0) == expected[0];
    assert NextKnown(col, 1) == expected[1];
    assert NextKnown(col, 2) == expected[2];
    assert NextKnown(col, 3) == expected[3];
    assert NextKnown(col, 4) == expected[4];
    assert NextKnown(col, 5) == expected[5];
    assert NextKnown(col, 6) == expected[6];
    assert NextKnown(col, 7) == expected[7];
    BackwardFillIs(col, expected);
  }

  /** `ffill` of column C along `KeysABC`. */
  lemma ForwardFillByABCC()
    ensures ForwardFill(SortedC()) ==
            [None, None, None, None, Some(IntVal(1)), Some(IntVal(1)), Some(IntVal(1)), Some(IntVal(1))]
  {
    var col, expected := SortedC(), [None, None, None, None, Some(IntVal(1)), Some(IntVal(1)), Some(IntVal(1)), Some(IntVal(1))];
    assert LastKnown(col, 0, None) == expected[0];
    assert LastKnown(col, 1, None) == expected[1];
    assert LastKnown(col, 2, None) == expected[2];
    assert LastKnown(col, 3, None) == expected[3];
    assert LastKnown(col, 4, None) == expected[4];
    assert LastKnown(col, 5, None) == expected[5];
    assert LastKnown(col, 6, None) == expected[6];
    assert LastKnown(col, 7, None) == expected[7];
    ForwardFillIs(col, expected);
  }

  /** `bfill` of column C along `KeysABC`. */
  lemma BackwardFillByABCC()
    ensures BackwardFill(SortedC()) ==
            [Some(IntVal(1)), Some(IntVal(1)), Some(IntVal(1)), Some(IntVal(1)), Some(IntVal(1)), None, None, None]
  {
    var col, expected := SortedC(), [Some(IntVal(1)), Some(IntVal(1)), Some(IntVal(1)), Some(IntVal(1)), Some(IntVal(1)), None, None, None];
    assert NextKnown(col, 0) == expected[0];
    assert NextKnown(col, 1) == expected[1];
    assert NextKnown(col, 2) == expected[2];
    assert NextKnown(col, 3) == expected[3];
    assert NextKnown(col, 4) == expected[4];
    assert NextKnown(col, 5) == expected[5];
    assert NextKnown(col, 6) == expected[6];
    assert NextKnown(col, 7) == expected[7];
    BackwardFillIs(col, expected);
  }

  /** `ffill` of column D along `KeysABC`. */
  lemma ForwardFillByABCD()
    ensures ForwardFill(SortedD()) ==
            [Some(IntVal(1)), Some(IntVal(1)), Some(IntVal(0)), Some(IntVal(4)), Some(IntVal(4)), Some(IntVal(4)), Some(IntVal(4)), Some(IntVal(4))]
  {
    var col, expected := SortedD(), [Some(IntVal(1)), Some(IntVal(1)), Some(IntVal(0)), Some(IntVal(4)), Some(IntVal(4)), Some(IntVal(4)), Some(IntVal(4)), Some(IntVal(4))];
    assert LastKnown(col, 0, None) == expected[0];
    assert LastKnown(col, 1, None) == expected[1];
    assert LastKnown(col, 2, None) == expected[2];
    assert LastKnown(col, 3, None) == expected[3];
    assert LastKnown(col, 4, None) == expected[4];
    assert LastKnown(col, 5, None) == expected[5];
    assert LastKnown(col, 6, None) == expected[6];
    assert LastKnown(col, 7, None) == expected[7];
    ForwardFillIs(col, expected);
  }

  /** `bfill` of column D along `KeysABC`. */
  lemma BackwardFillByABCD()
    ensures BackwardFill(SortedD()) ==
            [Some(IntVal(1)), Some(IntVal(0)), Some(IntVal(0)), Some(IntVal(4)), None, None, None, None]
  {
    var col, expected := SortedD(), [Some(IntVal(1)), Some(IntVal(0)), Some(IntVal(0)), Some(IntVal(4)), None, None, None, None];
    assert NextKnown(col, 0) == expected[0];
    assert NextKnown(col, 1) == expected[1];
    assert NextKnown(col, 2) == expected[2];
    assert NextKnown(col, 3) == expected[3];
    assert NextKnown(col, 4) == expected[4];
    assert NextKnown(col, 5) == expected[5];
    assert NextKnown(col, 6) == expected[6];
    assert NextKnown(col, 7) == expected[7];
    BackwardFillIs(col, expected);
  }

  /** `ffill` of column E along `KeysABC`. */
  lemma ForwardFillByABCE()
    ensures ForwardFill(SortedE()) ==
            [Some(IntVal(1)), Some(IntVal(1)), Some(IntVal(1)), Some(IntVal(1)), Some(IntVal(1)), Some(IntVal(1)), Some(IntVal(2)), Some(IntVal(3))]
  {
    var col, expected := SortedE(), [Some(IntVal(1)), Some(IntVal(1)), Some(IntVal(1)), Some(IntVal(1)), Some(IntVal(1)), Some(IntVal(1)), Some(IntVal(2)), Some(IntVal(3))];
    assert LastKnown(col, 0, None) == expected[0];
    assert LastKnown(col, 1, None) == expected[1];
    assert LastKnown(col, 2, None) == expected[2];
    assert LastKnown(col, 3, None) == expected[3];
    assert LastKnown(col, 4, None) == expected[4];
    assert LastKnown(col, 5, None) == expected[5];
    assert LastKnown(col, 6, None) == expected[6];
    assert LastKnown(col, 7, None) == expected[7];
    ForwardFillIs(col, expected);
  }

  /** `bfill` of column E along `KeysABC`. */
  lemma BackwardFillByABCE()
    ensures BackwardFill(SortedE()) ==
            [Some(IntVal(1)), Some(IntVal(2)), Some(IntVal(2)), Some(IntVal(2)), Some(IntVal(2)), Some(IntVal(2)), Some(IntVal(2)), Some(IntVal(3))]
  {
    var col, expected := SortedE(), [Some(IntVal(1)), Some(IntVal(2)), Some(IntVal(2)), Some(IntVal(2)), Some(IntVal(2)), Some(IntVal(2)), Some(IntVal(2)), Some(IntVal(3))];
    assert NextKnown(col, 0) == expected[0];
    assert NextKnown(col, 1) == expected[1];
    assert NextKnown(col, 2) == expected[2];
    assert NextKnown(col, 3) == expected[3];
    assert NextKnown(col, 4) == expected[4];
    assert NextKnown(col, 5) == expected[5];
    assert NextKnown(col, 6) == expected[6];
    assert NextKnown(col, 7) == expected[7];
    BackwardFillIs(col, expected);
  }

  /** `ffill` of column F along `KeysABC`. */
  lemma ForwardFillByABCF()
    ensures ForwardFill(SortedF()) ==
            [None, Some(StrVal("d")), Some(StrVal("c")), Some(StrVal("b")), Some(StrVal("f")), Some(StrVal("a")), Some(StrVal("a")), Some(StrVal("e"))]
  {
    var col, expected := SortedF(), [None, Some(StrVal("d")), Some(StrVal("c")), Some(StrVal("b")), Some(StrVal("f")), Some(StrVal("a")), Some(StrVal("a")), Some(StrVal("e"))];
    assert LastKnown(col, 0, None) == expected[0];
    assert LastKnown(col, 1, None) == expected[1];
    assert LastKnown(col, 2, None) == expected[2];
    assert LastKnown(col, 3, None) == expected[3];
    assert LastKnown(col, 4, None) == expected[4];
    assert LastKnown(col, 5, None) == expected[5];
    assert LastKnown(col, 6, None) == expected[6];
    assert LastKnown(col, 7, None) == expected[7];
    ForwardFillIs(col, expected);
  }

  /** `bfill` of column F along `KeysABC`. */
  lemma BackwardFillByABCF()
    ensures BackwardFill(SortedF()) ==
            [Some(StrVal("d")), Some(StrVal("d")), Some(StrVal("c")), Some(StrVal("b")), Some(StrVal("f")), Some(StrVal("a")), Some(StrVal("e")), Some(StrVal("e"))]
  {
    var col, expected := SortedF(), [Some(StrVal("d")), Some(StrVal("d")), Some(StrVal("c")), Some(StrVal("b")), Some(StrVal("f")), Some(StrVal("a")), Some(StrVal("e")), Some(StrVal("e"))];
    assert NextKnown(col, 0) == expected[0];
    assert NextKnown(col, 1) == expected[1];
    assert NextKnown(col, 2) == expected[2];
    assert NextKnown(col, 3) == expected[3];
    assert NextKnown(col, 4) == expected[4];
    assert NextKnown(col, 5) == expected[5];
    assert NextKnown(col, 6) == expected[6];
    assert NextKnown(col, 7) == expected[7];
    BackwardFillIs(col, expected);
  }

  /** `ffill` of column G along `KeysABC`. */
  lemma ForwardFillByABCG()
    ensures ForwardFill(SortedG()) ==
            [Some(TimeVal(1641081600)), Some(TimeVal(1641340800)), Some(TimeVal(1641340800)), Some(TimeVal(1641340800)), Some(TimeVal(1641340800)), Some(TimeVal(1640995200)), Some(TimeVal(1640995200)), Some(TimeVal(1641427200))]
  {
    var col, expected := SortedG(), [Some(TimeVal(1641081600)), Some(TimeVal(1641340800)), Some(TimeVal(1641340800)), Some(TimeVal(1641340800)), Some(TimeVal(1641340800)), Some(TimeVal(1640995200)), Some(TimeVal(1640995200)), Some(TimeVal(1641427200))];
    assert LastKnown(col, 0, None) == expected[0];
    assert LastKnown(col, 1, None) == expected[1];
    assert LastKnown(col, 2, None) == expected[2];
    assert LastKnown(col, 3, None) == expected[3];
    assert LastKnown(col, 4, None) == expected[4];
    assert LastKnown(col, 5, None) == expected[5];
    assert LastKnown(col, 6, None) == expected[6];
    assert LastKnown(col, 7, None) == expected[7];
    ForwardFillIs(col, expected);
  }

  /** `bfill` of column G along `KeysABC`. */
  lemma BackwardFillByABCG()
    ensures BackwardFill(SortedG()) ==
            [Some(TimeVal(1641081600)), Some(TimeVal(1641340800)), Some(TimeVal(1640995200)), Some(TimeVal(1640995200)), Some(TimeVal(1640995200)), Some(TimeVal(1640995200)), Some(TimeVal(1641427200)), Some(TimeVal(1641427200))]
  {
    var col, expected := SortedG(), [Some(TimeVal(1641081600)), Some(TimeVal(1641340800)), Some(TimeVal(1640995200)), Some(TimeVal(1640995200)), Some(TimeVal(1640995200)), Some(TimeVal(1640995200)), Some(TimeVal(1641427200)), Some(TimeVal(1641427200))];
    assert NextKnown(col, 0) == expected[0];
    assert NextKnown(col, 1) == expected[1];
    assert NextKnown(col, 2) == expected[2];
    assert NextKnown(col, 3) == expected[3];
    assert NextKnown(col, 4) == expected[4];
    assert NextKnown(col, 5) == expected[5];
    assert NextKnown(col, 6) == expected[6];
    assert NextKnown(col, 7) == expected[7];
    BackwardFillIs(col, expected);
  }

  /** The integer columns A to E of the frame as loaded. */
  function IntegerRows(): seq<Row>
  {
    seq(8, i requires 0 <= i < 8 => DataRows()[i].(cells := DataRows()[i].cells[..5]))
  }

  /** What `fillna(value=0)` gives on columns A to E. */
  function ZeroFilledRows(): seq<Row>
  {
    [ Row(0, [Some(IntVal(0)), Some(IntVal(0)), Some(IntVal(0)), Some(IntVal(0)), Some(IntVal(0))]),
      Row(1, [Some(IntVal(3)), Some(IntVal(4)), Some(IntVal(0)), Some(IntVal(1)), Some(IntVal(1))]),
      Row(2, [Some(IntVal(0)), Some(IntVal(3)), Some(IntVal(0)), Some(IntVal(4)), Some(IntVal(0))]),
      Row(3, [Some(IntVal(0)), Some(IntVal(2)), Some(IntVal(0)), Some(IntVal(0)), Some(IntVal(0))]),
      Row(4, [Some(IntVal(0)), Some(IntVal(0)), Some(IntVal(0)), Some(IntVal(0)), Some(IntVal(2))]),
      Row(5, [Some(IntVal(1)), Some(IntVal(0)), Some(IntVal(0)), Some(IntVal(0)), Some(IntVal(0))]),
      Row(6, [Some(IntVal(0)), Some(IntVal(0)), Some(IntVal(0)), Some(IntVal(0)), Some(IntVal(3))]),
      Row(7, [Some(IntVal(0)), Some(IntVal(0)), Some(IntVal(1)), Some(IntVal(0)), Some(IntVal(0))]) ]
  }

  /** `fillna(value=0)` on columns A to E: every NULL becomes 0, every number stays. */
  lemma ZeroFillExample()
    ensures FillNa(Frame(Names()[..5], IntegerRows(), []), Some(IntVal(0)), None, []) ==
            Ok(Frame(Names()[..5], ZeroFilledRows(), []))
  {
    var filled := FillConstant(IntegerRows(), IntVal(0));
    forall i | 0 <= i < 8
      ensures filled[i] == ZeroFilledRows()[i]
    {
      assert filled[i].cells == ZeroFilledRows()[i].cells;
    }
    assert filled == ZeroFilledRows();
  }

  /** `fillna(value=0, method='ffill')`: both arguments given. */
  lemma BothGivenExample()
    ensures FillNa(Data(), Some(IntVal(0)), Some("ffill"), []) == Err(BothValueAndMethod)
    ensures Message(BothValueAndMethod) == "cannot specify both \"method\" and \"value\"."
  {
    FillNaErrors(Data(), Some(IntVal(0)), Some("ffill"), []);
  }

  /** `fillna(method='random')`: not a propagation method, reported before the missing order. */
  lemma InvalidMethodExample()
    ensures FillNa(Data(), None, Some("random"), []) == Err(InvalidMethod("random"))
    ensures Message(InvalidMethod("random")) == "\"" + "random" + "\" is not a valid propagation method."
  {
    assert ParseMethod("random").None?;
    FillNaErrors(Data(), None, Some("random"), []);
  }

  /** `fillna(method='ffill')` on the frame as loaded, which is not sorted. */
  lemma UnsortedExample()
    ensures FillNa(Data(), None, Some("ffill"), []) == Err(Unsorted)
    ensures Message(Unsorted) == "dataframe must be sorted"
  {
    assert ParseMethod("ffill") == Some(Forward);
    FillNaErrors(Data(), None, Some("ffill"), []);
  }

  /** `sort_index()` of the loaded frame keeps its rows, which are already in index order. */
  lemma SortIndexOfData()
    ensures SortIndex(Data()) == ByIndex()
  {
    assert Sorted(DataRows(), [OnIndex(true)]);
    SortSorted(DataRows(), [OnIndex(true)]);
  }

  /** Row `i` of the loaded frame has index `i`. */
  lemma DataIndex(i: nat)
    requires i < 8
    ensures DataRows()[i].index == i
  {
    if i < 4 {
      assert i == 0 || i == 1 || i == 2 || i == 3;
    } else {
      assert i == 4 || i == 5 || i == 6 || i == 7;
    }
  }

  /** The loaded rows are in index order, the order `ByIndex()` remembers. */
  lemma ByIndexInOrder()
    ensures InOrder(ByIndex())
  {
    assert Sorted(DataRows(), [OnIndex(true)]);
    assert [IndexKey(true)][1..] == [] && Resolve(Names(), []) == Some([]);
    assert [OnIndex(true)] + [] == [OnIndex(true)];
  }

  /** The comparisons the sort on `KeysABC` makes: NULLs last in every key. */
  lemma ComparisonsABC()
    ensures CompareRows(Row6(), Row7(), ResolvedABC()) > 0
    ensures CompareRows(Row5(), Row7(), ResolvedABC()) < 0
    ensures CompareRows(Row4(), Row5(), ResolvedABC()) > 0
    ensures CompareRows(Row4(), Row7(), ResolvedABC()) > 0
    ensures CompareRows(Row4(), Row6(), ResolvedABC()) == 0
    ensures CompareRows(Row3(), Row5(), ResolvedABC()) > 0
    ensures CompareRows(Row3(), Row7(), ResolvedABC()) < 0
    ensures CompareRows(Row2(), Row5(), ResolvedABC()) > 0
    ensures CompareRows(Row2(), Row3(), ResolvedABC()) > 0
    ensures CompareRows(Row2(), Row7(), ResolvedABC()) < 0
    ensures CompareRows(Row1(), Row5(), ResolvedABC()) < 0
    ensures CompareRows(Row0(), Row1(), ResolvedABC()) > 0
    ensures CompareRows(Row0(), Row5(), ResolvedABC()) > 0
    ensures CompareRows(Row0(), Row3(), ResolvedABC()) > 0
    ensures CompareRows(Row0(), Row2(), ResolvedABC()) > 0
    ensures CompareRows(Row0(), Row7(), ResolvedABC()) > 0
    ensures CompareRows(Row0(), Row4(), ResolvedABC()) == 0
  {
  }

  /** The sort keys name columns A, B and C. */
  lemma ResolveABC()
    ensures Resolve(Names(), KeysABC()) == Some(ResolvedABC())
  {
    var names, keys := Names(), KeysABC();
    assert Position(names, "A") == Some(0);
    assert Position(names, "B") == Some(1);
    assert Position(names, "C") == Some(2);
    assert "A" in names && "B" in names && "C" in names;
    assert Resolve(names, keys).Some?;
    ResolveKeys(names, keys, 0);
    ResolveKeys(names, keys, 1);
    ResolveKeys(names, keys, 2);
    var r := Resolve(names, keys).value;
    assert |r| == 3 && r[0] == OnColumn(0, false) && r[1] == OnColumn(1, true) && r[2] == OnColumn(2, false);
    assert r == ResolvedABC();
  }

  /**
   * The insertion sort of eight rows that compare as rows 0 to 7 of the test data do on
   * `KeysABC`, stated for arbitrary rows so that their contents play no part in it. Step `i`
   * inserts row `i` into the sorted rows `i + 1` to 7; `SortShapes` lemmas hold the sequence
   * identities each step needs.
   */

  lemma SortShapes7(r7: Row)
    ensures [r7] + [] == [r7]
    ensures [] + [r7] + [] == [r7]
  {
  }

  lemma SortStep7(r7: Row, k: seq<Resolved>)
    ensures SortRows([r7], k) == [r7]
  {
    assert SortRows([], k) == [];
    SortRowsCons(r7, [], [], [], k);
    SortShapes7(r7);
  }

  lemma SortShapes6(r6: Row, r7: Row)
    ensures [r6] + [r7] == [r6, r7]
    ensures [r7] + [r6] + [] == [r7, r6]
  {
  }

  lemma SortStep6(r6: Row, r7: Row, k: seq<Resolved>)
    requires SortRows([r7], k) == [r7]
    requires CompareRows(r6, r7, k) > 0
    ensures SortRows([r6, r7], k) == [r7, r6]
  {
    SortRowsCons(r6, [r7], [r7], [], k);
    SortShapes6(r6, r7);
  }

  lemma SortShapes5(r5: Row, r6: Row, r7: Row)
    ensures [r5] + [r6, r7] == [r5, r6, r7]
    ensures [] + [r5] + [r7, r6] == [r5, r7, r6]
  {
  }

  lemma SortStep5(r5: Row, r6: Row, r7: Row, k: seq<Resolved>)
    requires SortRows([r6, r7], k) == [r7, r6]
    requires CompareRows(r5, r7, k) <= 0
    ensures SortRows([r5, r6, r7], k) == [r5, r7, r6]
  {
    SortRowsCons(r5, [r6, r7], [], [r7, r6], k);
    SortShapes5(r5, r6, r7);
  }

  lemma SortShapes4(r4: Row, r5: Row, r6: Row, r7: Row)
    ensures [r4] + [r5, r6, r7] == [r4, r5, r6, r7]
    ensures [r5, r7] + [r4] + [r6] == [r5, r7, r4, r6]
  {
  }

  lemma SortStep4(r4: Row, r5: Row, r6: Row, r7: Row, k: seq<Resolved>)
    requires SortRows([r5, r6, r7], k) == [r5, r7, r6]
    requires CompareRows(r4, r5, k) > 0
    requires CompareRows(r4, r7, k) > 0
    requires CompareRows(r4, r6, k) <= 0
    ensures SortRows([r4, r5, r6, r7], k) == [r5, r7, r4, r6]
  {
    SortRowsCons(r4, [r5, r6, r7], [r5, r7], [r6], k);
    SortShapes4(r4, r5, r6, r7);
  }

  lemma SortShapes3(r3: Row, r4: Row, r5: Row, r6: Row, r7: Row)
    ensures [r3] + [r4, r5, r6, r7] == [r3, r4, r5, r6, r7]
    ensures [r5] + [r3] + [r7, r4, r6] == [r5, r3, r7, r4, r6]
  {
  }

  lemma SortStep3(r3: Row, r4: Row, r5: Row, r6: Row, r7: Row, k: seq<Resolved>)
    requires SortRows([r4, r5, r6, r7], k) == [r5, r7, r4, r6]
    requires CompareRows(r3, r5, k) > 0
    requires CompareRows(r3, r7, k) <= 0
    ensures SortRows([r3, r4, r5, r6, r7], k) == [r5, r3, r7, r4, r6]
  {
    SortRowsCons(r3, [r4, r5, r6, r7], [r5], [r7, r4, r6], k);
    SortShapes3(r3, r4, r5, r6, r7);
  }

  lemma SortShapes2(r2: Row, r3: Row, r4: Row, r5: Row, r6: Row, r7: Row)
    ensures [r2] + [r3, r4, r5, r6, r7] == [r2, r3, r4, r5, r6, r7]
    ensures [r5, r3] + [r2] + [r7, r4, r6] == [r5, r3, r2, r7, r4, r6]
  {
  }

  lemma SortStep2(r2: Row, r3: Row, r4: Row, r5: Row, r6: Row, r7: Row, k: seq<Resolved>)
    requires SortRows([r3, r4, r5, r6, r7], k) == [r5, r3, r7, r4, r6]
    requires CompareRows(r2, r5, k) > 0
    requires CompareRows(r2, r3, k) > 0
    requires CompareRows(r2, r7, k) <= 0
    ensures SortRows([r2, r3, r4, r5, r6, r7], k) == [r5, r3, r2, r7, r4, r6]
  {
    SortRowsCons(r2, [r3, r4, r5, r6, r7], [r5, r3], [r7, r4, r6], k);
    SortShapes2(r2, r3, r4, r5, r6, r7);
  }

  lemma SortShapes1(r1: Row, r2: Row, r3: Row, r4: Row, r5: Row, r6: Row, r7: Row)
    ensures [r1] + [r2, r3, r4, r5, r6, r7] == [r1, r2, r3, r4, r5, r6, r7]
    ensures [] + [r1] + [r5, r3, r2, r7, r4, r6] == [r1, r5, r3, r2, r7, r4, r6]
  {
  }

  lemma SortStep1(r1: Row, r2: Row, r3: Row, r4: Row, r5: Row, r6: Row, r7: Row, k: seq<Resolved>)
    requires SortRows([r2, r3, r4, r5, r6, r7], k) == [r5, r3, r2, r7, r4, r6]
    requires CompareRows(r1, r5, k) <= 0
    ensures SortRows([r1, r2, r3, r4, r5, r6, r7], k) == [r1, r5, r3, r2, r7, r4, r6]
  {
    SortRowsCons(r1, [r2, r3, r4, r5, r6, r7], [], [r5, r3, r2, r7, r4, r6], k);
    SortShapes1(r1, r2, r3, r4, r5, r6, r7);
  }

  lemma SortShapes0(r0: Row, r1: Row, r2: Row, r3: Row, r4: Row, r5: Row, r6: Row, r7: Row)
    ensures [r0] + [r1, r2, r3, r4, r5, r6, r7] == [r0, r1, r2, r3, r4, r5, r6, r7]
    ensures [r1, r5, r3, r2, r7] + [r0] + [r4, r6] == [r1, r5, r3, r2, r7, r0, r4, r6]
  {
  }

  lemma SortStep0(r0: Row, r1: Row, r2: Row, r3: Row, r4: Row, r5: Row, r6: Row, r7: Row, k: seq<Resolved>)
    requires SortRows([r1, r2, r3, r4, r5, r6, r7], k) == [r1, r5, r3, r2, r7, r4, r6]
    requires CompareRows(r0, r1, k) > 0
    requires CompareRows(r0, r5, k) > 0
    requires CompareRows(r0, r3, k) > 0
    requires CompareRows(r0, r2, k) > 0
    requires CompareRows(r0, r7, k) > 0
    requires CompareRows(r0, r4, k) <= 0
    ensures SortRows([r0, r1, r2, r3, r4, r5, r6, r7], k) == [r1, r5, r3, r2, r7, r0, r4, r6]
  {
    SortRowsCons(r0, [r1, r2, r3, r4, r5, r6, r7], [r1, r5, r3, r2, r7], [r4, r6], k);
    SortShapes0(r0, r1, r2, r3, r4, r5, r6, r7);
  }

  lemma SortOfEight(r0: Row, r1: Row, r2: Row, r3: Row, r4: Row, r5: Row, r6: Row, r7: Row,
                    k: seq<Resolved>)
    requires CompareRows(r6, r7, k) > 0 && CompareRows(r5, r7, k) <= 0
    requires CompareRows(r4, r5, k) > 0 && CompareRows(r4, r7, k) > 0 && CompareRows(r4, r6, k) <= 0
    requires CompareRows(r3, r5, k) > 0 && CompareRows(r3, r7, k) <= 0
    requires CompareRows(r2, r5, k) > 0 && CompareRows(r2, r3, k) > 0 && CompareRows(r2, r7, k) <= 0
    requires CompareRows(r1, r5, k) <= 0
    requires CompareRows(r0, r1, k) > 0 && CompareRows(r0, r5, k) > 0 && CompareRows(r0, r3, k) > 0
    requires CompareRows(r0, r2, k) > 0 && CompareRows(r0, r7, k) > 0 && CompareRows(r0, r4, k) <= 0
    ensures SortRows([r0, r1, r2, r3, r4, r5, r6, r7], k) == [r1, r5, r3, r2, r7, r0, r4, r6]
  {
    SortStep7(r7, k);
    SortStep6(r6, r7, k);
    SortStep5(r5, r6, r7, k);
    SortStep4(r4, r5, r6, r7, k);
    SortStep3(r3, r4, r5, r6, r7, k);
    SortStep2(r2, r3, r4, r5, r6, r7, k);
    SortStep1(r1, r2, r3, r4, r5, r6, r7, k);
    SortStep0(r0, r1, r2, r3, r4, r5, r6, r7, k);
  }

  /**
   * `sort_values(by=['A', 'B', 'C'], ascending=[False, True, False])` orders the rows
   * 1, 5, 3, 2, 7, then the three rows whose keys are all NULL in their index order.
   */
  lemma SortByABC()
    ensures SortRows(DataRows(), ResolvedABC()) == RowsByABC()
  {
    ComparisonsABC();
    SortOfEight(Row0(), Row1(), Row2(), Row3(), Row4(), Row5(), Row6(), Row7(), ResolvedABC());
  }

  /**
   * `fillna(method=m)` on the frame after `sort_index()`: every column is filled along the index order, which is the order the
   * rows were loaded in, and the rows stay in that order.
   */
  lemma FillByIndexExample(df: Frame, m: string, c: nat)
    requires df == SortIndex(Data())
    requires m == "ffill" || m == "bfill"
    requires c < 7
    ensures FillNa(df, None, Some(m), []).Ok?
    ensures forall i | 0 <= i < 8 :: FillNa(df, None, Some(m), []).value.rows[i].index == i
    ensures ColumnOf(FillNa(df, None, Some(m), []).value.rows, c) ==
            FillColumn([ColumnA(), ColumnB(), ColumnC(), ColumnD(), ColumnE(), ColumnF(), ColumnG()][c],
                       if m == "ffill" then Forward else Backward)
  {
    assert ParseMethod(m).Some?;
    SortIndexOfData();
    ByIndexInOrder();
    FillNaInPlace(df, m, c);
    var r := FillNa(df, None, Some(m), []).value;
    forall i | 0 <= i < 8
      ensures r.rows[i].index == i
    {
      assert r.rows[i].index == DataRows()[i].index;
      DataIndex(i);
    }
    DataColumns(c);
  }

  /** A one-column frame remembering a sort on A ascending, its rows stored as A = 5, NULL, 1. */
  function StoredOnA(): Frame
  {
    Frame(["A"], [Row(0, [Some(IntVal(5))]), Row(1, [None]), Row(2, [Some(IntVal(1))])], [ColumnKey("A", true)])
  }

  /** The rows of `StoredOnA()` in the order of A ascending, NULL last. */
  function SortedOnA(): seq<Row>
  {
    [Row(2, [Some(IntVal(1))]), Row(0, [Some(IntVal(5))]), Row(1, [None])]
  }

  /** Sorting `StoredOnA()` on the keys it remembers gives `SortedOnA()`. */
  lemma StoredOnASorts()
    ensures Resolve(StoredOnA().names, StoredOnA().orderBy) == Some([OnColumn(0, true)])
    ensures SortRows(StoredOnA().rows, [OnColumn(0, true)]) == SortedOnA()
  {
    var f, keys := StoredOnA(), [OnColumn(0, true)];
    assert f.orderBy[1..] == [] && Resolve(f.names, []) == Some([]);
    assert Position(f.names, "A") == Some(0);
    assert [OnColumn(0, true)] + [] == keys;
    assert f.rows[1..][1..] == [f.rows[2]] && f.rows[1..][1..][1..] == [];
    assert SortRows([f.rows[2]], keys) == [f.rows[2]];
    assert CompareRows(f.rows[1], f.rows[2], keys) > 0;
    assert [f.rows[2]][1..] == [];
    assert Insert(f.rows[1], [f.rows[2]], keys) == [f.rows[2]] + Insert(f.rows[1], [], keys);
    assert SortRows(f.rows[1..], keys) == [f.rows[2], f.rows[1]];
    assert CompareRows(f.rows[0], f.rows[2], keys) > 0 && CompareRows(f.rows[0], f.rows[1], keys) < 0;
  }

  /** `bfill` along `SortedOnA()` has nothing to fill: the NULL row comes last. */
  lemma SortedOnABackwardFill()
    ensures Propagate(SortedOnA(), 1, Backward) == SortedOnA()
  {
    var sorted := SortedOnA();
    var col := ColumnOf(sorted, 0);
    assert col == [Some(IntVal(1)), Some(IntVal(5)), None];
    assert BackwardFill(col) == col by {
      BackwardFillIsNextKnown(col, 0);
      BackwardFillIsNextKnown(col, 1);
      BackwardFillIsNextKnown(col, 2);
    }
    PropagateByColumn(sorted, 1, Backward, 0);
    var p := Propagate(sorted, 1, Backward);
    forall i | 0 <= i < 3
      ensures p[i] == sorted[i]
    {
      assert ColumnOf(p, 0)[i] == p[i].cells[0];
      assert p[i].cells == [p[i].cells[0]] && sorted[i].cells == [sorted[i].cells[0]];
    }
  }

  /**
   * A frame sorted on A ascending propagates along that order, not along the order its rows
   * are stored in: `bfill` over A = 5, NULL, 1 sorts to 1, 5, NULL, so the NULL row has no
   * later value and stays NULL.
   */
  lemma FillAlongRememberedOrder()
    ensures FillNa(StoredOnA(), None, Some("bfill"), []) == Ok(StoredOnA().(rows := SortedOnA()))
  {
    StoredOnASorts();
    SortedOnABackwardFill();
  }

  /**
   * `fillna(method=m, sort_by=['A', 'B', 'C'], ascending=[False, True, False])` on the frame
   * as loaded: every column is filled along the order of `KeysABC`.
   */
  lemma FillByABCExample(m: string, c: nat)
    requires m == "ffill" || m == "bfill"
    requires c < 7
    ensures FillNa(Data(), None, Some(m), KeysABC()).Ok?
    ensures ColumnOf(FillNa(Data(), None, Some(m), KeysABC()).value.rows, c) ==
            FillColumn([SortedA(), SortedB(), SortedC(), SortedD(), SortedE(), SortedF(), SortedG()][c],
                       if m == "ffill" then Forward else Backward)
  {
    assert ParseMethod(m).Some?;
    ResolveABC();
    FillNaErrors(Data(), None, Some(m), KeysABC());
    FillNaFollowsOrder(Data(), m, KeysABC(), c);
    SortByABC();
    SortedColumns(c);
  }
}

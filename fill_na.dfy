/**
 * `DataFrame.fillna` of bach: replacing the NULL cells of a frame by a constant, or by
 * propagating the last known value forwards (`ffill`) or the next known value backwards
 * (`bfill`) along the frame's sort order.
 *
 * A frame is a sequence of rows in their current order; every row has its index value and
 * one optional cell per data column. The frame remembers the keys it was last sorted on,
 * which is what makes a propagation well defined.
 */
module DataFrameFill {
  import opened Wrappers

  /** A non-NULL cell value: an integer, a string or a timestamp (as a count of seconds). */
  datatype Value = IntVal(i: int) | StrVal(s: string) | TimeVal(t: int)

  /** A cell is NULL (`None`) or holds a value. */
  type Cell = Option<Value>

  datatype Row = Row(index: nat, cells: seq<Cell>)

  /** A key of `sort_values` (a data column by name) or of `sort_index` (the index). */
  datatype SortKey = IndexKey(ascending: bool) | ColumnKey(name: string, ascending: bool)

  /** A sort key with its column name replaced by the column's position. */
  datatype Resolved = OnIndex(ascending: bool) | OnColumn(position: nat, ascending: bool)

  datatype Frame = Frame(names: seq<string>, rows: seq<Row>, orderBy: seq<SortKey>)

  /** Every row has exactly one cell per column name. */
  predicate WellFormed(f: Frame)
  {
    forall i | 0 <= i < |f.rows| :: |f.rows[i].cells| == |f.names|
  }

  // ---------------------------------------------------------------------------------------
  // Ordering

  /** Three-way comparison of strings, character by character. */
  function CompareStrings(a: string, b: string): (r: int)
    ensures -1 <= r <= 1
    ensures r == 0 <==> a == b
  {
    if a == [] && b == [] then 0
    else if a == [] then -1
    else if b == [] then 1
    else if a[0] < b[0] then -1
    else if a[0] > b[0] then 1
    else
      assert a == [a[0]] + a[1..] && b == [b[0]] + b[1..];
      CompareStrings(a[1..], b[1..])
  }

  lemma {:induction false} CompareStringsFlip(a: string, b: string)
    ensures CompareStrings(b, a) == -CompareStrings(a, b)
  {
    if a != [] && b != [] && a[0] == b[0] {
      CompareStringsFlip(a[1..], b[1..]);
    }
  }

  lemma {:induction false} CompareStringsTransitive(a: string, b: string, c: string)
    requires CompareStrings(a, b) <= 0 && CompareStrings(b, c) <= 0
    ensures CompareStrings(a, c) <= 0
  {
    if a != [] && b != [] && c != [] && a[0] == b[0] == c[0] {
      CompareStringsTransitive(a[1..], b[1..], c[1..]);
    }
  }

  function Rank(v: Value): int
  {
    match v
    case IntVal(_) => 0
    case StrVal(_) => 1
    case TimeVal(_) => 2
  }

  function Sign(x: int): int
  {
    if x < 0 then -1 else if x > 0 then 1 else 0
  }

  /**
   * Three-way comparison of two values. A column holds values of one kind; values of
   * different kinds are ordered by kind only so that the order is total.
   */
  function CompareValues(x: Value, y: Value): (r: int)
    ensures -1 <= r <= 1
    ensures r == 0 <==> x == y
  {
    if Rank(x) != Rank(y) then Sign(Rank(x) - Rank(y))
    else match (x, y)
      case (IntVal(a), IntVal(b)) => Sign(a - b)
      case (TimeVal(a), TimeVal(b)) => Sign(a - b)
      case (StrVal(a), StrVal(b)) => CompareStrings(a, b)
  }

  lemma CompareValuesFlip(x: Value, y: Value)
    ensures CompareValues(y, x) == -CompareValues(x, y)
  {
    if x.StrVal? && y.StrVal? {
      CompareStringsFlip(x.s, y.s);
    }
  }

  lemma CompareValuesTransitive(x: Value, y: Value, z: Value)
    requires CompareValues(x, y) <= 0 && CompareValues(y, z) <= 0
    ensures CompareValues(x, z) <= 0
  {
    if x.StrVal? && y.StrVal? && z.StrVal? {
      CompareStringsTransitive(x.s, y.s, z.s);
    }
  }

  /**
   * Three-way comparison of two cells of a sort column: NULL sorts after every value,
   * whether the column is sorted ascending or descending.
   */
  function CompareCells(a: Cell, b: Cell, ascending: bool): (r: int)
    ensures -1 <= r <= 1
    ensures r == 0 <==> a == b
    ensures a.None? && b.Some? ==> r == 1
    ensures a.Some? && b.None? ==> r == -1
    ensures a.Some? && b.Some? && ascending ==> r == CompareValues(a.value, b.value)
    ensures a.Some? && b.Some? && !ascending ==> r == CompareValues(b.value, a.value)
  {
    match (a, b)
    case (None, None) => 0
    case (None, Some(_)) => 1
    case (Some(_), None) => -1
    case (Some(x), Some(y)) => if ascending then CompareValues(x, y) else CompareValues(y, x)
  }

  lemma CompareCellsFlip(a: Cell, b: Cell, ascending: bool)
    ensures CompareCells(b, a, ascending) == -CompareCells(a, b, ascending)
  {
    if a.Some? && b.Some? {
      CompareValuesFlip(a.value, b.value);
    }
  }

  lemma CompareCellsTransitive(a: Cell, b: Cell, c: Cell, ascending: bool)
    requires CompareCells(a, b, ascending) <= 0 && CompareCells(b, c, ascending) <= 0
    ensures CompareCells(a, c, ascending) <= 0
  {
    if a.Some? && b.Some? && c.Some? {
      if ascending {
        CompareValuesTransitive(a.value, b.value, c.value);
      } else {
        CompareValuesTransitive(c.value, b.value, a.value);
      }
    }
  }

  /** The cell a resolved key reads from a row: the index itself, or a data cell. */
  function KeyCell(r: Row, k: Resolved): Cell
  {
    match k
    case OnIndex(_) => Some(IntVal(r.index))
    case OnColumn(p, _) => if p < |r.cells| then r.cells[p] else None
  }

  /** Rows compared on the first key, ties broken by the following keys. */
  function CompareRows(a: Row, b: Row, keys: seq<Resolved>): (r: int)
    ensures -1 <= r <= 1
  {
    if keys == [] then 0
    else
      var c := CompareCells(KeyCell(a, keys[0]), KeyCell(b, keys[0]), keys[0].ascending);
      if c != 0 then c else CompareRows(a, b, keys[1..])
  }

  /** Two rows tie exactly when they hold the same cell under every key. */
  lemma {:induction false} CompareRowsTies(a: Row, b: Row, keys: seq<Resolved>)
    ensures CompareRows(a, b, keys) == 0 <==>
            forall j | 0 <= j < |keys| :: KeyCell(a, keys[j]) == KeyCell(b, keys[j])
  {
    if keys != [] {
      CompareRowsTies(a, b, keys[1..]);
      if CompareRows(a, b, keys) == 0 {
        forall j | 0 <= j < |keys|
          ensures KeyCell(a, keys[j]) == KeyCell(b, keys[j])
        {
          if j > 0 {
            assert keys[j] == keys[1..][j - 1];
          }
        }
      } else if forall j | 0 <= j < |keys| :: KeyCell(a, keys[j]) == KeyCell(b, keys[j]) {
        assert KeyCell(a, keys[0]) == KeyCell(b, keys[0]);
        forall j | 0 <= j < |keys| - 1
          ensures KeyCell(a, keys[1..][j]) == KeyCell(b, keys[1..][j])
        {
          assert keys[1..][j] == keys[j + 1];
        }
        assert false;
      }
    }
  }

  lemma {:induction false} CompareRowsFlip(a: Row, b: Row, keys: seq<Resolved>)
    ensures CompareRows(b, a, keys) == -CompareRows(a, b, keys)
  {
    if keys != [] {
      CompareCellsFlip(KeyCell(a, keys[0]), KeyCell(b, keys[0]), keys[0].ascending);
      CompareRowsFlip(a, b, keys[1..]);
    }
  }

  lemma {:induction false} CompareRowsTransitive(a: Row, b: Row, c: Row, keys: seq<Resolved>)
    requires CompareRows(a, b, keys) <= 0 && CompareRows(b, c, keys) <= 0
    ensures CompareRows(a, c, keys) <= 0
  {
    if keys != [] {
      var k := keys[0];
      var ka, kb, kc := KeyCell(a, k), KeyCell(b, k), KeyCell(c, k);
      CompareCellsTransitive(ka, kb, kc, k.ascending);
      CompareCellsFlip(ka, kb, k.ascending);
      CompareCellsFlip(kb, kc, k.ascending);
      if CompareCells(ka, kc, k.ascending) == 0 {
        CompareRowsTransitive(a, b, c, keys[1..]);
      }
    }
  }

  /** Each row sorts no later than the row after it. */
  predicate Sorted(s: seq<Row>, keys: seq<Resolved>)
  {
    forall i | 0 <= i < |s| - 1 :: CompareRows(s[i], s[i + 1], keys) <= 0
  }

  /** Any row of a sorted sequence sorts no later than any row after it. */
  lemma {:induction false} SortedPairwise(s: seq<Row>, keys: seq<Resolved>, i: nat, j: nat)
    requires Sorted(s, keys) && i <= j < |s|
    ensures CompareRows(s[i], s[j], keys) <= 0
    decreases j - i
  {
    if i == j {
      if keys != [] {
        CompareRowsFlip(s[i], s[i], keys);
      }
    } else {
      SortedPairwise(s, keys, i + 1, j);
      CompareRowsTransitive(s[i], s[i + 1], s[j], keys);
    }
  }

  /** `x` placed in front of the first row of `s` that sorts strictly after it. */
  function Insert(x: Row, s: seq<Row>, keys: seq<Resolved>): (r: seq<Row>)
    ensures |r| == |s| + 1
  {
    if s == [] || CompareRows(x, s[0], keys) <= 0 then
      [x] + s
    else
      [s[0]] + Insert(x, s[1..], keys)
  }

  /** Inserting adds exactly `x` to the rows. */
  lemma {:induction false} InsertPermutes(x: Row, s: seq<Row>, keys: seq<Resolved>)
    ensures multiset(Insert(x, s, keys)) == multiset(s) + multiset{x}
  {
    if s != [] && CompareRows(x, s[0], keys) > 0 {
      InsertPermutes(x, s[1..], keys);
      assert s == [s[0]] + s[1..];
    }
  }

  /** Inserting into sorted rows gives sorted rows, headed by `x` or by the old head. */
  lemma {:induction false} InsertSorted(x: Row, s: seq<Row>, keys: seq<Resolved>)
    requires Sorted(s, keys)
    ensures Sorted(Insert(x, s, keys), keys)
    ensures Insert(x, s, keys)[0] == x || (s != [] && Insert(x, s, keys)[0] == s[0])
  {
    if s != [] && CompareRows(x, s[0], keys) > 0 {
      CompareRowsFlip(x, s[0], keys);
      InsertSorted(x, s[1..], keys);
    }
  }

  /**
   * A row is inserted after every leading row it sorts strictly after, and before the first
   * row it does not.
   */
  lemma {:induction false} InsertAfter(x: Row, before: seq<Row>, after: seq<Row>, keys: seq<Resolved>)
    requires forall i | 0 <= i < |before| :: CompareRows(x, before[i], keys) > 0
    requires after == [] || CompareRows(x, after[0], keys) <= 0
    ensures Insert(x, before + after, keys) == before + [x] + after
  {
    if before != [] {
      InsertAfter(x, before[1..], after, keys);
      assert (before + after)[1..] == before[1..] + after;
    }
  }

  /**
   * The rows in sort order. Rows that compare equal on every key keep their current
   * relative order (the sort is stable).
   */
  function SortRows(s: seq<Row>, keys: seq<Resolved>): (r: seq<Row>)
    ensures |r| == |s|
  {
    if s == [] then []
    else Insert(s[0], SortRows(s[1..], keys), keys)
  }

  /**
   * Sorting a row followed by rows `s` places that row after the leading sorted rows it
   * sorts strictly after and before the rest.
   */
  lemma SortRowsCons(x: Row, s: seq<Row>, before: seq<Row>, after: seq<Row>, keys: seq<Resolved>)
    requires SortRows(s, keys) == before + after
    requires forall i | 0 <= i < |before| :: CompareRows(x, before[i], keys) > 0
    requires after == [] || CompareRows(x, after[0], keys) <= 0
    ensures SortRows([x] + s, keys) == before + [x] + after
  {
    assert ([x] + s)[1..] == s;
    InsertAfter(x, before, after, keys);
  }

  /** Sorting rearranges the rows: it neither adds, drops nor duplicates one. */
  lemma {:induction false} SortRowsPermutes(s: seq<Row>, keys: seq<Resolved>)
    ensures multiset(SortRows(s, keys)) == multiset(s)
  {
    if s != [] {
      SortRowsPermutes(s[1..], keys);
      InsertPermutes(s[0], SortRows(s[1..], keys), keys);
      assert s == [s[0]] + s[1..];
    }
  }

  /** Sorting gives rows in key order. */
  lemma {:induction false} SortRowsSorted(s: seq<Row>, keys: seq<Resolved>)
    ensures Sorted(SortRows(s, keys), keys)
  {
    if s != [] {
      SortRowsSorted(s[1..], keys);
      InsertSorted(s[0], SortRows(s[1..], keys), keys);
    }
  }

  /** Sorting rows that are already in key order leaves them where they are. */
  lemma {:induction false} SortSorted(s: seq<Row>, keys: seq<Resolved>)
    requires Sorted(s, keys)
    ensures SortRows(s, keys) == s
  {
    if s != [] {
      SortSorted(s[1..], keys);
      assert s == [s[0]] + s[1..];
    }
  }

  /** The position of column `name`, if the frame has one. */
  function Position(names: seq<string>, name: string): (r: Option<nat>)
    ensures r.Some? ==> r.value < |names| && names[r.value] == name
    ensures r.None? ==> name !in names
  {
    if names == [] then None
    else if names[0] == name then Some(0)
    else
      var p := Position(names[1..], name);
      if p.Some? then Some(p.value + 1) else None
  }

  /** The keys with their column names replaced by positions; `None` if a name is unknown. */
  function Resolve(names: seq<string>, keys: seq<SortKey>): (r: Option<seq<Resolved>>)
    ensures r.Some? ==> |r.value| == |keys|
    ensures r.Some? <==> forall j | 0 <= j < |keys| :: keys[j].ColumnKey? ==> keys[j].name in names
  {
    if keys == [] then Some([])
    else
      var rest := Resolve(names, keys[1..]);
      var first := match keys[0]
        case IndexKey(asc) => Some(OnIndex(asc))
        case ColumnKey(n, asc) =>
          var p := Position(names, n);
          if p.Some? then Some(OnColumn(p.value, asc)) else None;
      if first.Some? && rest.Some? then
        Some([first.value] + rest.value)
      else
        assert first.None? ==> keys[0].ColumnKey? && keys[0].name !in names;
        None
  }

  /** A resolved key reads the same direction as its key, from the position of its column. */
  lemma {:induction false} ResolveKeys(names: seq<string>, keys: seq<SortKey>, j: nat)
    requires Resolve(names, keys).Some? && j < |keys|
    ensures keys[j].IndexKey? ==> Resolve(names, keys).value[j] == OnIndex(keys[j].ascending)
    ensures keys[j].ColumnKey? ==>
              (Position(names, keys[j].name).Some? &&
               Resolve(names, keys).value[j] == OnColumn(Position(names, keys[j].name).value, keys[j].ascending))
  {
    if j > 0 {
      ResolveKeys(names, keys[1..], j - 1);
    }
  }

  // ---------------------------------------------------------------------------------------
  // Propagation along one column

  /** The value a forward fill gives position `k`: the nearest known cell at or before it. */
  function LastKnown(col: seq<Cell>, k: nat, fallback: Cell): Cell
    requires k < |col|
  {
    if col[k].Some? then col[k]
    else if k == 0 then fallback
    else LastKnown(col, k - 1, fallback)
  }

  /** The value a backward fill gives position `k`: the nearest known cell at or after it. */
  function NextKnown(col: seq<Cell>, k: nat): Cell
    requires k < |col|
    decreases |col| - k
  {
    if col[k].Some? then col[k]
    else if k == |col| - 1 then None
    else NextKnown(col, k + 1)
  }

  /** Forward fill of a column, carrying the last known cell from top to bottom. */
  function ForwardFrom(col: seq<Cell>, last: Cell): (r: seq<Cell>)
    ensures |r| == |col|
    ensures forall k | 0 <= k < |col| && col[k].Some? :: r[k] == col[k]
  {
    if col == [] then []
    else
      var c := if col[0].Some? then col[0] else last;
      [c] + ForwardFrom(col[1..], c)
  }

  function ForwardFill(col: seq<Cell>): (r: seq<Cell>)
    ensures |r| == |col|
    ensures forall k | 0 <= k < |col| && col[k].Some? :: r[k] == col[k]
  {
    ForwardFrom(col, None)
  }

  /** Backward fill of a column: each cell is filled from the already filled rest. */
  function BackwardFill(col: seq<Cell>): (r: seq<Cell>)
    ensures |r| == |col|
    ensures forall k | 0 <= k < |col| && col[k].Some? :: r[k] == col[k]
  {
    if col == [] then []
    else if col[0].Some? || |col| == 1 then [col[0]] + BackwardFill(col[1..])
    else
      var rest := BackwardFill(col[1..]);
      [rest[0]] + rest
  }

  /** The nearest known cell searched from the front is the carried one searched from row 1. */
  lemma {:induction false} LastKnownShift(col: seq<Cell>, k: nat, fallback: Cell)
    requires 0 < k < |col|
    ensures LastKnown(col[1..], k - 1, LastKnown(col, 0, fallback)) == LastKnown(col, k, fallback)
  {
    if col[k].None? && k > 1 {
      LastKnownShift(col, k - 1, fallback);
    }
  }

  lemma {:induction false} ForwardFromIsLastKnown(col: seq<Cell>, last: Cell, k: nat)
    requires k < |col|
    ensures ForwardFrom(col, last)[k] == LastKnown(col, k, last)
  {
    if k > 0 {
      ForwardFromIsLastKnown(col[1..], LastKnown(col, 0, last), k - 1);
      LastKnownShift(col, k, last);
    }
  }

  /** `ffill` gives each row the nearest known cell at or before it, NULL if there is none. */
  lemma ForwardFillIsLastKnown(col: seq<Cell>)
    ensures forall k | 0 <= k < |col| :: ForwardFill(col)[k] == LastKnown(col, k, None)
  {
    forall k | 0 <= k < |col|
      ensures ForwardFill(col)[k] == LastKnown(col, k, None)
    {
      ForwardFromIsLastKnown(col, None, k);
    }
  }

  lemma {:induction false} NextKnownShift(col: seq<Cell>, k: nat)
    requires 0 < k < |col|
    ensures NextKnown(col[1..], k - 1) == NextKnown(col, k)
    decreases |col| - k
  {
    if col[k].None? && k < |col| - 1 {
      NextKnownShift(col, k + 1);
    }
  }

  /** `bfill` gives each row the nearest known cell at or after it, NULL if there is none. */
  lemma {:induction false} BackwardFillIsNextKnown(col: seq<Cell>, k: nat)
    requires k < |col|
    ensures BackwardFill(col)[k] == NextKnown(col, k)
  {
    if k > 0 {
      BackwardFillIsNextKnown(col[1..], k - 1);
      NextKnownShift(col, k);
    } else if |col| > 1 {
      BackwardFillIsNextKnown(col[1..], 0);
      NextKnownShift(col, 1);
    }
  }

  /**
   * `ffill`: a NULL whose nearest known cell above it is row `j` takes that cell's value.
   */
  lemma {:induction false} ForwardFillTakesNearestEarlier(col: seq<Cell>, j: nat, k: nat)
    requires j <= k < |col| && col[j].Some?
    requires forall i | j < i <= k :: col[i].None?
    ensures ForwardFill(col)[k] == col[j]
  {
    ForwardFillIsLastKnown(col);
    LastKnownReaches(col, j, k, None);
  }

  lemma {:induction false} LastKnownReaches(col: seq<Cell>, j: nat, k: nat, fallback: Cell)
    requires j <= k < |col| && col[j].Some?
    requires forall i | j < i <= k :: col[i].None?
    ensures LastKnown(col, k, fallback) == col[j]
    decreases k
  {
    if k > j {
      LastKnownReaches(col, j, k - 1, fallback);
    }
  }

  /** `bfill`: a NULL whose nearest known cell below it is row `j` takes that cell's value. */
  lemma {:induction false} BackwardFillTakesNearestLater(col: seq<Cell>, j: nat, k: nat)
    requires k <= j < |col| && col[j].Some?
    requires forall i | k <= i < j :: col[i].None?
    ensures BackwardFill(col)[k] == col[j]
  {
    BackwardFillIsNextKnown(col, k);
    NextKnownReaches(col, j, k);
  }

  lemma {:induction false} NextKnownReaches(col: seq<Cell>, j: nat, k: nat)
    requires k <= j < |col| && col[j].Some?
    requires forall i | k <= i < j :: col[i].None?
    ensures NextKnown(col, k) == col[j]
    decreases j - k
  {
    if k < j {
      NextKnownReaches(col, j, k + 1);
    }
  }

  /** `ffill` leaves a cell NULL exactly when it and every cell above it are NULL. */
  lemma {:induction false} LeadingNullsSurvive(col: seq<Cell>, k: nat)
    requires k < |col|
    ensures ForwardFill(col)[k].None? <==> forall j | 0 <= j <= k :: col[j].None?
  {
    ForwardFillIsLastKnown(col);
    LastKnownNone(col, k);
  }

  lemma {:induction false} LastKnownNone(col: seq<Cell>, k: nat)
    requires k < |col|
    ensures LastKnown(col, k, None).None? <==> forall j | 0 <= j <= k :: col[j].None?
  {
    if k > 0 && col[k].None? {
      LastKnownNone(col, k - 1);
    }
  }

  /** `bfill` leaves a cell NULL exactly when it and every cell below it are NULL. */
  lemma {:induction false} TrailingNullsSurvive(col: seq<Cell>, k: nat)
    requires k < |col|
    ensures BackwardFill(col)[k].None? <==> forall j | k <= j < |col| :: col[j].None?
  {
    BackwardFillIsNextKnown(col, k);
    NextKnownNone(col, k);
  }

  lemma {:induction false} NextKnownNone(col: seq<Cell>, k: nat)
    requires k < |col|
    ensures NextKnown(col, k).None? <==> forall j | k <= j < |col| :: col[j].None?
    decreases |col| - k
  {
    if k < |col| - 1 && col[k].None? {
      NextKnownNone(col, k + 1);
    }
  }

  /** A forward fill of a forward filled column changes nothing. */
  lemma ForwardFillIdempotent(col: seq<Cell>)
    ensures ForwardFill(ForwardFill(col)) == ForwardFill(col)
  {
    var f := ForwardFill(col);
    ForwardFillIsLastKnown(col);
    ForwardFillIsLastKnown(f);
    forall k | 0 <= k < |col|
      ensures LastKnown(f, k, None) == LastKnown(col, k, None)
    {
      LastKnownOfFilled(col, k);
    }
  }

  lemma {:induction false} LastKnownOfFilled(col: seq<Cell>, k: nat)
    requires k < |col|
    ensures LastKnown(ForwardFill(col), k, None) == LastKnown(col, k, None)
  {
    ForwardFillIsLastKnown(col);
    if k > 0 {
      LastKnownOfFilled(col, k - 1);
    }
  }

  /** A backward fill of a backward filled column changes nothing. */
  lemma BackwardFillIdempotent(col: seq<Cell>)
    ensures BackwardFill(BackwardFill(col)) == BackwardFill(col)
  {
    var b := BackwardFill(col);
    forall k | 0 <= k < |col|
      ensures BackwardFill(b)[k] == b[k]
    {
      BackwardFillIsNextKnown(b, k);
      NextKnownOfFilled(col, k);
    }
  }

  lemma {:induction false} NextKnownOfFilled(col: seq<Cell>, k: nat)
    requires k < |col|
    ensures NextKnown(BackwardFill(col), k) == BackwardFill(col)[k]
    decreases |col| - k
  {
    BackwardFillIsNextKnown(col, k);
    if k < |col| - 1 {
      NextKnownOfFilled(col, k + 1);
      BackwardFillIsNextKnown(col, k + 1);
    }
  }

  function Reverse(s: seq<Cell>): (r: seq<Cell>)
    ensures |r| == |s| && forall i | 0 <= i < |s| :: r[i] == s[|s| - 1 - i]
  {
    seq(|s|, i requires 0 <= i < |s| => s[|s| - 1 - i])
  }

  lemma {:induction false} NextKnownMirrorsLastKnown(col: seq<Cell>, k: nat)
    requires k < |col|
    ensures NextKnown(col, k) == LastKnown(Reverse(col), |col| - 1 - k, None)
    decreases |col| - k
  {
    if col[k].None? && k < |col| - 1 {
      NextKnownMirrorsLastKnown(col, k + 1);
    }
  }

  /** `bfill` is `ffill` applied to the column read from bottom to top. */
  lemma BackwardFillMirrorsForward(col: seq<Cell>)
    ensures BackwardFill(col) == Reverse(ForwardFill(Reverse(col)))
  {
    ForwardFillIsLastKnown(Reverse(col));
    forall k | 0 <= k < |col|
      ensures BackwardFill(col)[k] == Reverse(ForwardFill(Reverse(col)))[k]
    {
      BackwardFillIsNextKnown(col, k);
      NextKnownMirrorsLastKnown(col, k);
    }
  }

  // ---------------------------------------------------------------------------------------
  // Filling a frame

  datatype FillMethod = Forward | Backward

  /** The propagation method named by `method=`. */
  function ParseMethod(m: string): Option<FillMethod>
  {
    if m == "ffill" then Some(Forward)
    else if m == "bfill" then Some(Backward)
    else None
  }

  function FillColumn(col: seq<Cell>, m: FillMethod): (r: seq<Cell>)
    ensures |r| == |col|
  {
    match m
    case Forward => ForwardFill(col)
    case Backward => BackwardFill(col)
  }

  /** The cells of column `c`, top to bottom (NULL for a row too short to have one). */
  function ColumnOf(rows: seq<Row>, c: nat): (r: seq<Cell>)
    ensures |r| == |rows|
  {
    seq(|rows|, i requires 0 <= i < |rows| => if c < |rows[i].cells| then rows[i].cells[c] else None)
  }

  /** Every one of the `width` columns filled on its own, in the current row order. */
  function Propagate(rows: seq<Row>, width: nat, m: FillMethod): (r: seq<Row>)
    ensures |r| == |rows|
    ensures forall i | 0 <= i < |rows| :: r[i].index == rows[i].index && |r[i].cells| == width
  {
    var filled := seq(width, c requires 0 <= c < width => FillColumn(ColumnOf(rows, c), m));
    seq(|rows|, i requires 0 <= i < |rows| =>
      Row(rows[i].index, seq(width, c requires 0 <= c < width => filled[c][i])))
  }

  /** Each column of a propagated frame is that column, and only that column, filled. */
  lemma PropagateByColumn(rows: seq<Row>, width: nat, m: FillMethod, c: nat)
    requires c < width
    ensures ColumnOf(Propagate(rows, width, m), c) == FillColumn(ColumnOf(rows, c), m)
  {
  }

  /** Propagation never changes a known cell. */
  lemma PropagateKeepsKnownCells(rows: seq<Row>, width: nat, m: FillMethod, i: nat, c: nat)
    requires i < |rows| && c < width && c < |rows[i].cells| && rows[i].cells[c].Some?
    ensures Propagate(rows, width, m)[i].cells[c] == rows[i].cells[c]
  {
    PropagateByColumn(rows, width, m, c);
    assert ColumnOf(rows, c)[i] == rows[i].cells[c];
  }

  /** `fillna(value=v)`: every NULL cell becomes `v`. */
  function FillConstant(rows: seq<Row>, v: Value): (r: seq<Row>)
    ensures |r| == |rows|
    ensures forall i | 0 <= i < |rows| :: r[i].index == rows[i].index
    ensures forall i | 0 <= i < |rows| :: |r[i].cells| == |rows[i].cells|
    ensures forall i, c | 0 <= i < |rows| && 0 <= c < |rows[i].cells| ::
              r[i].cells[c].Some? && (rows[i].cells[c].Some? ==> r[i].cells[c] == rows[i].cells[c])
    ensures forall i, c | 0 <= i < |rows| && 0 <= c < |rows[i].cells| ::
              rows[i].cells[c].None? ==> r[i].cells[c] == Some(v)
  {
    seq(|rows|, i requires 0 <= i < |rows| =>
      Row(rows[i].index, seq(|rows[i].cells|, c requires 0 <= c < |rows[i].cells| =>
        if rows[i].cells[c].Some? then rows[i].cells[c] else Some(v))))
  }

  /** Filling with a constant a second time changes nothing. */
  lemma FillConstantIdempotent(rows: seq<Row>, v: Value, w: Value)
    ensures FillConstant(FillConstant(rows, v), w) == FillConstant(rows, v)
  {
    var once := FillConstant(rows, v);
    var twice := FillConstant(once, w);
    forall i | 0 <= i < |rows|
      ensures twice[i] == once[i]
    {
      assert twice[i].cells == once[i].cells;
    }
  }

  /**
   * The rows are in the order the frame remembers. `sort_values` and `sort_index` leave a
   * frame in this state, and a propagation without `sort_by` follows this order.
   */
  predicate InOrder(f: Frame)
  {
    Resolve(f.names, f.orderBy).Some? && Sorted(f.rows, Resolve(f.names, f.orderBy).value)
  }

  /** `sort_values(by=keys)`: the rows in the order of the keys, which the frame remembers. */
  function SortValues(f: Frame, keys: seq<SortKey>): (r: Result<Frame, FillError>)
    ensures r.Err? <==> Resolve(f.names, keys).None?
    ensures r.Err? ==> r.error == UnknownSortColumn
    ensures r.Ok? ==> r.value.names == f.names && r.value.orderBy == keys
    ensures r.Ok? ==> multiset(r.value.rows) == multiset(f.rows)
    ensures r.Ok? ==> Sorted(r.value.rows, Resolve(f.names, keys).value) && InOrder(r.value)
  {
    match Resolve(f.names, keys)
    case None => Err(UnknownSortColumn)
    case Some(rk) =>
      SortRowsPermutes(f.rows, rk);
      SortRowsSorted(f.rows, rk);
      Ok(Frame(f.names, SortRows(f.rows, rk), keys))
  }

  /** `sort_index()`: the rows in ascending order of their index. */
  function SortIndex(f: Frame): (r: Frame)
    ensures r.names == f.names && r.orderBy == [IndexKey(true)]
    ensures multiset(r.rows) == multiset(f.rows)
    ensures forall i | 0 <= i < |r.rows| - 1 :: r.rows[i].index <= r.rows[i + 1].index
    ensures InOrder(r)
  {
    var rows := SortRows(f.rows, [OnIndex(true)]);
    assert Resolve(f.names, [IndexKey(true)]) == Some([OnIndex(true)]) by {
      assert [IndexKey(true)][1..] == [] && Resolve(f.names, []) == Some([]);
      assert [OnIndex(true)] + [] == [OnIndex(true)];
    }
    SortRowsPermutes(f.rows, [OnIndex(true)]);
    SortRowsSorted(f.rows, [OnIndex(true)]);
    IndexOrderSorted(rows);
    Frame(f.names, rows, [IndexKey(true)])
  }

  /** Sorted on the index alone means the indexes do not decrease. */
  lemma IndexOrderSorted(s: seq<Row>)
    requires Sorted(s, [OnIndex(true)])
    ensures forall i | 0 <= i < |s| - 1 :: s[i].index <= s[i + 1].index
  {
    var keys := [OnIndex(true)];
    assert keys[0] == OnIndex(true) && keys[1..] == [];
    forall i | 0 <= i < |s| - 1
      ensures s[i].index <= s[i + 1].index
    {
      var a, b := KeyCell(s[i], keys[0]), KeyCell(s[i + 1], keys[0]);
      assert a == Some(IntVal(s[i].index)) && b == Some(IntVal(s[i + 1].index));
      assert CompareRows(s[i], s[i + 1], keys) ==
             if CompareCells(a, b, true) != 0 then CompareCells(a, b, true) else CompareRows(s[i], s[i + 1], []);
    }
  }

  datatype FillError = BothValueAndMethod | InvalidMethod(name: string) | Unsorted | UnknownSortColumn

  /** The text of the exception raised for each error. */
  function Message(e: FillError): string
  {
    match e
    case BothValueAndMethod => "cannot specify both \"method\" and \"value\"."
    case InvalidMethod(m) => "\"" + m + "\" is not a valid propagation method."
    case Unsorted => "dataframe must be sorted"
    case UnknownSortColumn => "sort_by names a column the frame does not have"
  }


  /** The keys a propagation follows: `sort_by` when given, otherwise the frame's own order. */
  function FillOrder(f: Frame, sortBy: seq<SortKey>): seq<SortKey>
  {
    if sortBy == [] then f.orderBy else sortBy
  }

  /**
   * `df.fillna(value=, method=, sort_by=/ascending=)`. A constant fills every NULL; a method
   * propagates along `sort_by` when given, otherwise along the order the frame remembers.
   * The frame's row order after a propagation is that order.
   */
  function FillNa(f: Frame, value: Option<Value>, fillMethod: Option<string>, sortBy: seq<SortKey>)
    : (r: Result<Frame, FillError>)
  {
    if value.Some? && fillMethod.Some? then Err(BothValueAndMethod)
    else if value.Some? then Ok(f.(rows := FillConstant(f.rows, value.value)))
    else if fillMethod.None? then Ok(f)
    else match ParseMethod(fillMethod.value)
      case None => Err(InvalidMethod(fillMethod.value))
      case Some(m) =>
        if FillOrder(f, sortBy) == [] then Err(Unsorted)
        else match SortValues(f, FillOrder(f, sortBy))
          case Err(e) => Err(e)
          case Ok(sorted) => Ok(sorted.(rows := Propagate(sorted.rows, |f.names|, m)))
  }

  /** The argument errors, each exactly when its condition holds, checked in this order. */
  lemma FillNaErrors(f: Frame, value: Option<Value>, fillMethod: Option<string>, sortBy: seq<SortKey>)
    ensures FillNa(f, value, fillMethod, sortBy) == Err(BothValueAndMethod) <==>
            value.Some? && fillMethod.Some?
    ensures FillNa(f, value, fillMethod, sortBy).Err? && FillNa(f, value, fillMethod, sortBy).error.InvalidMethod?
            <==> value.None? && fillMethod.Some? && ParseMethod(fillMethod.value).None?
    ensures FillNa(f, value, fillMethod, sortBy).Err? && FillNa(f, value, fillMethod, sortBy).error.InvalidMethod?
            ==> FillNa(f, value, fillMethod, sortBy).error.name == fillMethod.value
    ensures FillNa(f, value, fillMethod, sortBy) == Err(Unsorted) <==>
            value.None? && fillMethod.Some? && ParseMethod(fillMethod.value).Some? &&
            sortBy == [] && f.orderBy == []
    ensures FillNa(f, value, fillMethod, sortBy) == Err(UnknownSortColumn) <==>
            value.None? && fillMethod.Some? && ParseMethod(fillMethod.value).Some? &&
            FillOrder(f, sortBy) != [] && Resolve(f.names, FillOrder(f, sortBy)).None?
  {
  }

  /** Row `after` has the index of row `before` and every cell known in `before`. */
  predicate RowKeptFrom(before: Row, after: Row)
  {
    && before.index == after.index
    && |before.cells| == |after.cells|
    && forall c | 0 <= c < |before.cells| && before.cells[c].Some? :: after.cells[c] == before.cells[c]
  }

  /** Each row of `after` is kept from the row of `before` at the same position. */
  predicate KeptRowForRow(before: seq<Row>, after: seq<Row>)
  {
    && |after| == |before|
    && forall i | 0 <= i < |after| :: RowKeptFrom(before[i], after[i])
  }

  /**
   * `after` is `before` rearranged, every row keeping its index and its known cells: no row
   * is dropped and none is repeated.
   */
  ghost predicate KeepsKnownCells(before: seq<Row>, after: seq<Row>)
  {
    exists order :: multiset(order) == multiset(before) && KeptRowForRow(order, after)
  }

  /** Rearranging the rows of a well-formed frame keeps it well formed. */
  lemma RearrangedWellFormed(f: Frame, order: seq<Row>)
    requires WellFormed(f) && multiset(order) == multiset(f.rows)
    ensures WellFormed(f.(rows := order))
  {
    forall i | 0 <= i < |order|
      ensures |order[i].cells| == |f.names|
    {
      assert order[i] in multiset(f.rows);
      var j :| 0 <= j < |f.rows| && f.rows[j] == order[i];
    }
  }

  /** A successful `fillna` keeps the column names and rearranges the rows, keeping every known cell. */
  lemma FillNaKeepsKnownCells(f: Frame, value: Option<Value>, fillMethod: Option<string>,
                              sortBy: seq<SortKey>)
    requires WellFormed(f) && FillNa(f, value, fillMethod, sortBy).Ok?
    ensures var r := FillNa(f, value, fillMethod, sortBy).value;
      r.names == f.names && WellFormed(r) && KeepsKnownCells(f.rows, r.rows)
  {
    var r := FillNa(f, value, fillMethod, sortBy).value;
    if value.Some? {
      ConstantKeepsKnownCells(f, value.value);
      assert multiset(f.rows) == multiset(f.rows) && KeptRowForRow(f.rows, r.rows);
    } else if fillMethod.None? {
      assert multiset(f.rows) == multiset(f.rows) && KeptRowForRow(f.rows, r.rows);
    } else {
      var m := ParseMethod(fillMethod.value).value;
      var keys := Resolve(f.names, FillOrder(f, sortBy)).value;
      var order := SortRows(f.rows, keys);
      SortRowsPermutes(f.rows, keys);
      RearrangedWellFormed(f, order);
      assert r.rows == Propagate(order, |f.names|, m);
      PropagateKeepsKnown(order, |f.names|, m);
      assert multiset(order) == multiset(f.rows) && KeptRowForRow(order, r.rows);
    }
  }

  /** A constant fill keeps every row in place with its index and known cells. */
  lemma ConstantKeepsKnownCells(f: Frame, v: Value)
    requires WellFormed(f)
    ensures var r := f.(rows := FillConstant(f.rows, v)); WellFormed(r) && KeptRowForRow(f.rows, r.rows)
  {
  }

  /** A propagation keeps every row in place with its index and known cells. */
  lemma PropagateKeepsKnown(rows: seq<Row>, width: nat, m: FillMethod)
    requires forall i | 0 <= i < |rows| :: |rows[i].cells| == width
    ensures KeptRowForRow(rows, Propagate(rows, width, m))
  {
    var r := Propagate(rows, width, m);
    forall i | 0 <= i < |rows|
      ensures RowKeptFrom(rows[i], r[i])
    {
      forall c | 0 <= c < width && rows[i].cells[c].Some?
        ensures r[i].cells[c] == rows[i].cells[c]
      {
        PropagateKeepsKnownCells(rows, width, m, i, c);
      }
    }
  }

  /**
   * A propagating `fillna` sorts the rows on `sort_by` when given, and on the frame's own
   * `orderBy` otherwise, remembers that order, and fills every column on its own along it.
   */
  lemma FillNaFollowsOrder(f: Frame, m: string, sortBy: seq<SortKey>, c: nat)
    requires c < |f.names| && FillNa(f, None, Some(m), sortBy).Ok?
    ensures ParseMethod(m).Some? && FillOrder(f, sortBy) != []
    ensures Resolve(f.names, FillOrder(f, sortBy)).Some?
    ensures var r := FillNa(f, None, Some(m), sortBy).value;
      var order := SortRows(f.rows, Resolve(f.names, FillOrder(f, sortBy)).value);
      && r.orderBy == FillOrder(f, sortBy)
      && (forall i | 0 <= i < |r.rows| :: r.rows[i].index == order[i].index)
      && ColumnOf(r.rows, c) == FillColumn(ColumnOf(order, c), ParseMethod(m).value)
  {
    var order := SortRows(f.rows, Resolve(f.names, FillOrder(f, sortBy)).value);
    PropagateByColumn(order, |f.names|, ParseMethod(m).value, c);
  }

  /**
   * On a frame whose rows are in the order it remembers (as `sort_values` and `sort_index`
   * leave it), a propagation without `sort_by` succeeds and fills the rows where they are.
   */
  lemma FillNaInPlace(f: Frame, m: string, c: nat)
    requires InOrder(f) && f.orderBy != [] && ParseMethod(m).Some? && c < |f.names|
    ensures FillNa(f, None, Some(m), []).Ok?
    ensures var r := FillNa(f, None, Some(m), []).value;
      && r.orderBy == f.orderBy
      && (forall i | 0 <= i < |r.rows| :: r.rows[i].index == f.rows[i].index)
      && ColumnOf(r.rows, c) == FillColumn(ColumnOf(f.rows, c), ParseMethod(m).value)
  {
    FillNaFollowsOrder(f, m, [], c);
    SortSorted(f.rows, Resolve(f.names, f.orderBy).value);
  }
}

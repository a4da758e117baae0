# Objectiv bach json accessors, bach `fillna` and tracker validation rules in Dafny

This project models three behaviours of the Objectiv repository as its functional tests pin them down, and proves properties of each.

- **JSON series accessors of bach** (`series_json.dfy`, `json_frame.dfy`). A json series is a column of optional JSON values. The accessors are:
  - `get_value(key)` and `json[key]`: member lookup;
  - `json[i]`: list indexing, where a negative index counts from the end;
  - `json[a:b]`: list slicing, where a bound is absent, an integer or a *query document* that selects the first element structurally containing it;
  - `get_array_length()`;
  - the containment comparison `doc <= series`.

  The special-characters test builds its frame by assigning columns in place (`df[name] = ...`), so `JsonFrame.DataFrame` is a class whose methods update its columns.
- **`DataFrame.fillna` of bach** (`fill_na.dfy`). It fills NULL cells either with a constant or by propagation:
  - `ffill` takes the nearest earlier known cell;
  - `bfill` takes the nearest later one;
  - propagation sorts the rows on `sort_by`/`ascending` when given, otherwise on the keys the frame was last sorted on, and runs along that order.

  `fillna` raises three argument errors: both `value` and `method` given, an unknown method, and no order to propagate along.
- **Developer-tools validation rules of the tracker** (`validation_rules.dfy`):
  - the missing-global-context rule;
  - the unique-global-context rule, keyed by type and id;
  - the location-context rule, with its `once` and `position` options.

  `Validate` gives the messages a rule emits for an event, in order. `ValidateOn` logs them on a `MockConsole`, a class that records its `groupCollapsed` calls.

The `*_examples.dfy` files state, on the data of the tests, exactly what the tests expect:
- the rows of `mixed_column` and `list_column`;
- the eight-row fillna frame;
- the exact console messages.

Each operation is written as a function or method of the model, and each has a partner: a general lemma that relates it to an independent description or to another operation. The partners are:
- containment is reflexive and transitive;
- `json[key]` is `get_value`;
- a slice with a one-element range agrees with indexing;
- a query bound is the integer bound of the first match;
- `ffill` gives every cell its nearest earlier known cell, and `bfill` is the mirror of `ffill`;
- both fills are idempotent, and `fillna` rearranges the rows without dropping or repeating one, keeping every known cell;
- a sort is a sorted permutation;
- a rule emits nothing exactly when the event conforms to it.

Two modelling choices, taken from the tests' expected data:
- NULL sort keys sort last in both directions, as the expected order at `test_df_fillna.py:113-123` shows;
- rows that tie on every sort key keep their order in the frame, which is their index order for the loaded data.

## Model

| member | source | states |
|---|---|---|
| SeriesJson.ContainsReflexive | bach/tests/functional/bach/test_series_json.py:57-79 | every JSON value contains itself, so `doc <= col` holds for the row equal to `doc` |
| SeriesJson.ContainsTransitive | bach/tests/functional/bach/test_series_json.py:57-79 | containment is transitive: a value containing `b` contains everything `b` contains |
| SeriesJson.SubObjectContained | bach/tests/functional/bach/test_series_json.py:58-68 | an object contains any object made of some of its members, as `{"a": "b"} <= mixed_column` is true on rows 0 and 2 |
| SeriesJson.ElementContained | bach/tests/functional/bach/test_series_json.py:69-79 | a list contains the one-element list of each of its elements, as `["a"] <= mixed_column` is true on row 1 |
| SeriesJson.ScalarListContainment | bach/tests/functional/bach/test_series_json.py:69-79 | for lists of scalars, `ys <= xs` holds exactly when every element of `ys` occurs in `xs` (both directions) |
| SeriesJson.GetItemKeyIsGetValue | bach/tests/functional/bach/test_series_json.py:109-120 | `json["a"]` selects exactly what `get_value("a")` selects, for every value |
| SeriesJson.GetValueIsLiteral | bach/tests/functional/bach/test_series_json.py:127-145 | a lookup depends only on the member named exactly `key`; dots or brackets in the key never make it a path, and a present key gives that member |
| SeriesJson.GetIndexWithinLength | bach/tests/functional/bach/test_series_json.py:85-108 | `json[i]` gives a value exactly when the value is a list and `-get_array_length() <= i < get_array_length()`, and a negative index names the element `length + i` |
| SeriesJson.FirstMatch | bach/tests/functional/bach/test_series_json.py:215-231 | the result is the first element at or after `from` that contains the query document, and None exactly when no such element exists |
| SeriesJson.SliceItems | bach/tests/functional/bach/test_series_json.py:148-192 | every slice of a list is a contiguous run of that list, in order |
| SeriesJson.SliceWhole | bach/tests/functional/bach/test_series_json.py:177-192 | `[:]` gives the list itself |
| SeriesJson.SliceDropFirst | bach/tests/functional/bach/test_series_json.py:152-164 | `[1:]` drops the first element (and gives `[]` on `[]`) |
| SeriesJson.SliceDropFirstAndLast | bach/tests/functional/bach/test_series_json.py:165-176 | `[1:-1]` drops the first and the last element; a list of two or fewer gives `[]` |
| SeriesJson.SliceOfOneAgreesWithIndex | bach/tests/functional/bach/test_series_json.py:85-108 | for an index inside the list, the slice `[i:i+1]` is the one-element list of `json[i]` |
| SeriesJson.QueryLowerBound | bach/tests/functional/bach/test_series_json.py:220-231 | a query-document lower bound is the integer bound of the first element containing the document (inclusive) |
| SeriesJson.QueryUpperBound | bach/tests/functional/bach/test_series_json.py:232-242 | a query-document upper bound keeps the first element containing the document, like the integer bound one past it |
| SeriesJson.QueryNoMatch | bach/tests/functional/bach/test_series_json.py:220-253 | when no element contains the query document the slice is `[]`, as a lower and as an upper bound |
| SeriesJson.SeriesGetItem | bach/tests/functional/bach/test_series_json.py:29-43 | an accessor maps every row on its own, keeps the row count and gives NULL on a NULL row |
| SeriesJson.SeriesContains | bach/tests/functional/bach/test_series_json.py:57-79 | `doc <= series` is the containment of `doc` in each row, NULL on a NULL row |
| SeriesJson.SliceRows | bach/tests/functional/bach/test_series_json.py:148-192 | slicing a list column keeps the row count and slices every row into a contiguous run of that row |
| SeriesJsonExamples.MemberDiffers | bach/tests/functional/bach/test_series_json.py:220-231 | an object whose member `k` is a different string does not contain `{k: v}` |
| SeriesJsonExamples.MemberMissing | bach/tests/functional/bach/test_series_json.py:220-231 | an object without member `k` does not contain `{k: v}` |
| SeriesJsonExamples.GetValueExample | bach/tests/functional/bach/test_series_json.py:29-43 | `mixed_column.json.get_value("a")` is `["b", NULL, "b", NULL]` |
| SeriesJsonExamples.GetIndexExample | bach/tests/functional/bach/test_series_json.py:85-108 | `json[0]` and `json[-2]` on `mixed_column` give the expected four rows |
| SeriesJsonExamples.ObjectContainmentExample | bach/tests/functional/bach/test_series_json.py:57-68 | `{"a": "b"} <= mixed_column` is `[True, False, True, False]` |
| SeriesJsonExamples.ListContainmentExample | bach/tests/functional/bach/test_series_json.py:69-79 | `["a"] <= mixed_column` is `[False, True, False, False]` |
| SeriesJsonExamples.ArrayLengthExample | bach/tests/functional/bach/test_series_json.py:258-270 | `list_column.json.get_array_length()` is `[2, 4, 3, 4]` |
| SeriesJsonExamples.DropFirstExample | bach/tests/functional/bach/test_series_json.py:152-164 | `list_column.json[1:]` gives the expected rows |
| SeriesJsonExamples.DropFirstAndLastExample | bach/tests/functional/bach/test_series_json.py:165-176 | `list_column.json[1:-1]` gives the expected rows, row 0 becoming `[]` |
| SeriesJsonExamples.WholeSliceExample | bach/tests/functional/bach/test_series_json.py:177-192 | `list_column.json[:]` gives the column unchanged |
| SeriesJsonExamples.QueryLowerOnStack | bach/tests/functional/bach/test_series_json.py:220-231 | `[{"_type": "SectionContext"}:]` on the location stack starts at its first section context |
| SeriesJsonExamples.QueryLowerNoSection | bach/tests/functional/bach/test_series_json.py:220-231 | `[{"_type": "SectionContext"}:]` gives `[]` on rows 0 to 2 |
| SeriesJsonExamples.QueryNoMatchInStrings | bach/tests/functional/bach/test_series_json.py:220-253 | no object query matches a list of strings, so either query bound gives `[]` on row 1 |
| SeriesJsonExamples.QueryLowerNoSectionInObjects | bach/tests/functional/bach/test_series_json.py:220-231 | `[{"_type": "SectionContext"}:]` gives `[]` on row 0 |
| SeriesJsonExamples.QueryLowerNoSectionInPairs | bach/tests/functional/bach/test_series_json.py:220-231 | `[{"_type": "SectionContext"}:]` gives `[]` on row 2 |
| SeriesJsonExamples.QueryUpperOnThirdRow | bach/tests/functional/bach/test_series_json.py:232-242 | `[1:{"id": "d"}]` on row 2 keeps exactly the matching element |
| SeriesJsonExamples.QueryBothOnThirdRow | bach/tests/functional/bach/test_series_json.py:243-253 | `[{"_type": "a"}:{"id": "d"}]` on row 2 keeps the first two elements |
| SeriesJsonExamples.QueryUpperNoMatch | bach/tests/functional/bach/test_series_json.py:232-253 | an upper bound `{"id": "d"}` gives `[]` on rows 0, 1 and 3 whatever the lower bound |
| SeriesJsonExamples.QueryUpperNoMatchInObjects | bach/tests/functional/bach/test_series_json.py:232-242 | an upper bound `{"id": "d"}` gives `[]` on row 0 |
| SeriesJsonExamples.QueryUpperNoMatchOnStack | bach/tests/functional/bach/test_series_json.py:232-242 | an upper bound `{"id": "d"}` gives `[]` on row 3 |
| JsonFrame.DataFrame.constructor | bach/tests/functional/bach/test_series_json.py:126-127 | a new frame has the given row count and no columns |
| JsonFrame.DataFrame.Column | bach/tests/functional/bach/test_series_json.py:134-138 | `df[name]` is a series of the frame's row count |
| JsonFrame.DataFrame.SetSeries | bach/tests/functional/bach/test_series_json.py:135-138 | `df[name] = series` replaces or adds exactly that column (a new name goes last) and keeps all columns the same length |
| JsonFrame.DataFrame.SetValue | bach/tests/functional/bach/test_series_json.py:134 | `df[name] = value` puts the json value in every row of that column and changes nothing else |
| JsonFrame.SpecialCharacterLookups | bach/tests/functional/bach/test_series_json.py:128-138 | keys `test.test`, `123test` and `[{}@!{R#(!@(!` select their own members, and chained `["test"]["test"]` the nested one |
| JsonFrame.AddSelections | bach/tests/functional/bach/test_series_json.py:134-138 | assigning `select_a` to `select_d` to a frame with columns `row` and `data` appends the four names in that order, sets exactly those four columns and keeps the frame valid |
| JsonFrame.SpecialCharacterKeys | bach/tests/functional/bach/test_series_json.py:123-145 | the frame built in place has the columns `row`, `data`, `select_a` to `select_d` in that order, `data` is the literal object, and the selections are "a", "b", "c", "d" |
| DataFrameFill.CompareStrings | bach/tests/functional/bach/test_df_fillna.py:109-124 | a three-way string comparison that is 0 exactly on equal strings |
| DataFrameFill.CompareStringsFlip | bach/tests/functional/bach/test_df_fillna.py:109-124 | string comparison is antisymmetric |
| DataFrameFill.CompareStringsTransitive | bach/tests/functional/bach/test_df_fillna.py:109-124 | string comparison is transitive |
| DataFrameFill.CompareValues | bach/tests/functional/bach/test_df_fillna.py:109-124 | a three-way value comparison that is 0 exactly on equal values |
| DataFrameFill.CompareValuesFlip | bach/tests/functional/bach/test_df_fillna.py:109-124 | value comparison is antisymmetric |
| DataFrameFill.CompareValuesTransitive | bach/tests/functional/bach/test_df_fillna.py:109-124 | value comparison is transitive |
| DataFrameFill.CompareCells | bach/tests/functional/bach/test_df_fillna.py:109-124 | NULL sorts after every value in both directions; two values compare as values, reversed when descending; 0 exactly on equal cells |
| DataFrameFill.CompareCellsFlip | bach/tests/functional/bach/test_df_fillna.py:109-124 | cell comparison is antisymmetric |
| DataFrameFill.CompareCellsTransitive | bach/tests/functional/bach/test_df_fillna.py:109-124 | cell comparison is transitive |
| DataFrameFill.CompareRows | bach/tests/functional/bach/test_df_fillna.py:106-124 | row comparison on the sort keys is three-way |
| DataFrameFill.CompareRowsTies | bach/tests/functional/bach/test_df_fillna.py:119-124 | two rows tie exactly when they hold the same cell under every key (the rows the tests write as ANY) |
| DataFrameFill.CompareRowsFlip | bach/tests/functional/bach/test_df_fillna.py:109-124 | row comparison is antisymmetric |
| DataFrameFill.CompareRowsTransitive | bach/tests/functional/bach/test_df_fillna.py:109-124 | row comparison is transitive |
| DataFrameFill.SortedPairwise | bach/tests/functional/bach/test_df_fillna.py:109-124 | in a sorted sequence every earlier row compares at most equal to every later one |
| DataFrameFill.Insert | bach/tests/functional/bach/test_df_fillna.py:109-124 | inserting a row lengthens the sequence by one |
| DataFrameFill.InsertPermutes | bach/tests/functional/bach/test_df_fillna.py:109-124 | insertion adds exactly the inserted row to the multiset of rows |
| DataFrameFill.InsertSorted | bach/tests/functional/bach/test_df_fillna.py:109-124 | inserting into a sorted sequence keeps it sorted |
| DataFrameFill.InsertAfter | bach/tests/functional/bach/test_df_fillna.py:109-124 | a row goes after every row it compares greater than and before the first row it does not compare greater than |
| DataFrameFill.SortRows | bach/tests/functional/bach/test_df_fillna.py:109-124 | sorting keeps the number of rows |
| DataFrameFill.SortRowsCons | bach/tests/functional/bach/test_df_fillna.py:109-124 | sorting a row followed by rows places it where `InsertAfter` says within the sorted rest |
| DataFrameFill.SortRowsPermutes | bach/tests/functional/bach/test_df_fillna.py:109-124 | sorting is a permutation of the rows |
| DataFrameFill.SortRowsSorted | bach/tests/functional/bach/test_df_fillna.py:109-124 | sorting gives a sorted sequence |
| DataFrameFill.Position | bach/tests/functional/bach/test_df_fillna.py:106-110 | the position of a column name, None exactly when the frame has no such column |
| DataFrameFill.Resolve | bach/tests/functional/bach/test_df_fillna.py:106-110 | `sort_by` resolves exactly when it names only columns of the frame, one resolved key per key |
| DataFrameFill.ResolveKeys | bach/tests/functional/bach/test_df_fillna.py:106-110 | each resolved key reads the named column (or the index) in the direction `ascending` gives it |
| DataFrameFill.ForwardFrom | bach/tests/functional/bach/test_df_fillna.py:170-185 | a forward fill keeps the length and every known cell |
| DataFrameFill.ForwardFill | bach/tests/functional/bach/test_df_fillna.py:170-185 | `ffill` of a column keeps its length and every known cell |
| DataFrameFill.BackwardFill | bach/tests/functional/bach/test_df_fillna.py:187-202 | `bfill` of a column keeps its length and every known cell |
| DataFrameFill.LastKnownShift | bach/tests/functional/bach/test_df_fillna.py:170-185 | the nearest known cell at or before `k` is found again one position on in the rest of the column |
| DataFrameFill.ForwardFromIsLastKnown | bach/tests/functional/bach/test_df_fillna.py:170-185 | each cell of a forward fill is the nearest known cell at or before it |
| DataFrameFill.ForwardFillIsLastKnown | bach/tests/functional/bach/test_df_fillna.py:170-185 | `ffill` gives every position the nearest known cell at or before it, NULL if there is none |
| DataFrameFill.NextKnownShift | bach/tests/functional/bach/test_df_fillna.py:187-202 | the nearest known cell at or after `k` is found again one position back in the rest of the column |
| DataFrameFill.BackwardFillIsNextKnown | bach/tests/functional/bach/test_df_fillna.py:187-202 | `bfill` gives every position the nearest known cell at or after it, NULL if there is none |
| DataFrameFill.ForwardFillTakesNearestEarlier | bach/tests/functional/bach/test_df_fillna.py:170-185 | a NULL takes the value of the nearest earlier known cell |
| DataFrameFill.LastKnownReaches | bach/tests/functional/bach/test_df_fillna.py:170-185 | the nearest known cell at or before `k` is the last known one before a run of NULLs |
| DataFrameFill.BackwardFillTakesNearestLater | bach/tests/functional/bach/test_df_fillna.py:187-202 | a NULL takes the value of the nearest later known cell |
| DataFrameFill.NextKnownReaches | bach/tests/functional/bach/test_df_fillna.py:187-202 | the nearest known cell at or after `k` is the first known one after a run of NULLs |
| DataFrameFill.LeadingNullsSurvive | bach/tests/functional/bach/test_df_fillna.py:170-185 | after `ffill` a cell is NULL exactly when it and every cell above it were NULL (row 0, column C) |
| DataFrameFill.LastKnownNone | bach/tests/functional/bach/test_df_fillna.py:170-185 | no known cell at or before `k` exactly when all of them are NULL |
| DataFrameFill.TrailingNullsSurvive | bach/tests/functional/bach/test_df_fillna.py:187-202 | after `bfill` a cell is NULL exactly when it and every cell below it were NULL |
| DataFrameFill.NextKnownNone | bach/tests/functional/bach/test_df_fillna.py:187-202 | no known cell at or after `k` exactly when all of them are NULL |
| DataFrameFill.ForwardFillIdempotent | bach/tests/functional/bach/test_df_fillna.py:170-185 | `ffill` twice is `ffill` once |
| DataFrameFill.LastKnownOfFilled | bach/tests/functional/bach/test_df_fillna.py:170-185 | a filled column has the same nearest-earlier known cells as the original |
| DataFrameFill.BackwardFillIdempotent | bach/tests/functional/bach/test_df_fillna.py:187-202 | `bfill` twice is `bfill` once |
| DataFrameFill.NextKnownOfFilled | bach/tests/functional/bach/test_df_fillna.py:187-202 | a backward-filled column has the same nearest-later known cells as its fill |
| DataFrameFill.Reverse | bach/tests/functional/bach/test_df_fillna.py:187-202 | reversing puts element `i` at position `n - 1 - i` |
| DataFrameFill.NextKnownMirrorsLastKnown | bach/tests/functional/bach/test_df_fillna.py:187-202 | the nearest later known cell is the nearest earlier known cell of the reversed column |
| DataFrameFill.BackwardFillMirrorsForward | bach/tests/functional/bach/test_df_fillna.py:187-202 | `bfill` is `ffill` of the reversed column, reversed back |
| DataFrameFill.FillColumn | bach/tests/functional/bach/test_df_fillna.py:170-202 | filling a column by either method keeps its length |
| DataFrameFill.ColumnOf | bach/tests/functional/bach/test_df_fillna.py:126-162 | a column has one cell per row |
| DataFrameFill.Propagate | bach/tests/functional/bach/test_df_fillna.py:126-162 | propagation keeps the rows, their indexes and the frame width |
| DataFrameFill.PropagateByColumn | bach/tests/functional/bach/test_df_fillna.py:126-162 | each column of a propagated frame is that column filled on its own, whatever the other columns hold |
| DataFrameFill.PropagateKeepsKnownCells | bach/tests/functional/bach/test_df_fillna.py:126-162 | propagation never changes a known cell |
| DataFrameFill.FillConstant | bach/tests/functional/bach/test_df_fillna.py:32-47 | `fillna(value=v)` keeps the rows, their indexes and every known cell, and turns every NULL into `v` |
| DataFrameFill.FillConstantIdempotent | bach/tests/functional/bach/test_df_fillna.py:32-47 | filling with a constant a second time changes nothing |
| DataFrameFill.SortValues | bach/tests/functional/bach/test_df_fillna.py:109-124 | `sort_values` fails exactly on an unknown column; otherwise it keeps the columns, remembers the keys and gives a sorted permutation of the rows, so the frame is in the order it remembers |
| DataFrameFill.SortIndex | bach/tests/functional/bach/test_df_fillna.py:166-168 | `sort_index()` gives a permutation of the rows in index order, remembers that order, and leaves the frame in it |
| DataFrameFill.IndexOrderSorted | bach/tests/functional/bach/test_df_fillna.py:166-168 | rows sorted on the ascending index have non-decreasing indexes |
| DataFrameFill.FillNaErrors | bach/tests/functional/bach/test_df_fillna.py:205-215 | each error exactly when its condition holds, in the order both-given, invalid method (naming it), unsorted, unknown sort column |
| DataFrameFill.FillNaKeepsKnownCells | bach/tests/functional/bach/test_df_fillna.py:126-202 | a successful `fillna` keeps the columns and rearranges the rows, with no row dropped or repeated, each keeping its index and every known cell |
| DataFrameFill.ConstantKeepsKnownCells | bach/tests/functional/bach/test_df_fillna.py:32-47 | a constant fill keeps every row in place with its index and every known cell |
| DataFrameFill.RearrangedWellFormed | bach/tests/functional/bach/test_df_fillna.py:126-162 | rearranging the rows of a well-formed frame keeps every row the width of the frame |
| DataFrameFill.PropagateKeepsKnown | bach/tests/functional/bach/test_df_fillna.py:126-202 | a propagation keeps every row in place with its index and every known cell |
| DataFrameFill.FillNaFollowsOrder | bach/tests/functional/bach/test_df_fillna.py:126-202 | a propagating `fillna` sorts the rows on `sort_by` when given and on the frame's remembered `orderBy` otherwise, remembers those keys, and fills each column on its own along that order |
| DataFrameFill.FillNaInPlace | bach/tests/functional/bach/test_df_fillna.py:166-202 | on a frame in the order it remembers, a propagation without `sort_by` succeeds, keeps the rows where they are and fills each column along that order |
| DataFrameFillExamples.DataColumns | bach/tests/functional/bach/test_df_fillna.py:14-23 | columns A to G of the loaded frame, top to bottom |
| DataFrameFillExamples.SortedColumns | bach/tests/functional/bach/test_df_fillna.py:109-124 | columns A to G in the order of `sort_by=[A, B, C], ascending=[False, True, False]` |
| DataFrameFillExamples.ForwardFillIs | bach/tests/functional/bach/test_df_fillna.py:170-185 | a column whose nearest earlier known cells are `expected` forward-fills to `expected` |
| DataFrameFillExamples.BackwardFillIs | bach/tests/functional/bach/test_df_fillna.py:187-202 | a column whose nearest later known cells are `expected` backward-fills to `expected` |
| DataFrameFillExamples.ForwardFillByIndexA | bach/tests/functional/bach/test_df_fillna.py:170-185 | `ffill` in index order gives column A of the expected frame |
| DataFrameFillExamples.BackwardFillByIndexA | bach/tests/functional/bach/test_df_fillna.py:187-202 | `bfill` in index order gives column A of the expected frame |
| DataFrameFillExamples.ForwardFillByIndexB | bach/tests/functional/bach/test_df_fillna.py:170-185 | `ffill` in index order gives column B of the expected frame |
| DataFrameFillExamples.BackwardFillByIndexB | bach/tests/functional/bach/test_df_fillna.py:187-202 | `bfill` in index order gives column B of the expected frame |
| DataFrameFillExamples.ForwardFillByIndexC | bach/tests/functional/bach/test_df_fillna.py:170-185 | `ffill` in index order gives column C of the expected frame |
| DataFrameFillExamples.BackwardFillByIndexC | bach/tests/functional/bach/test_df_fillna.py:187-202 | `bfill` in index order gives column C of the expected frame |
| DataFrameFillExamples.ForwardFillByIndexD | bach/tests/functional/bach/test_df_fillna.py:170-185 | `ffill` in index order gives column D of the expected frame |
| DataFrameFillExamples.BackwardFillByIndexD | bach/tests/functional/bach/test_df_fillna.py:187-202 | `bfill` in index order gives column D of the expected frame |
| DataFrameFillExamples.ForwardFillByIndexE | bach/tests/functional/bach/test_df_fillna.py:170-185 | `ffill` in index order gives column E of the expected frame |
| DataFrameFillExamples.BackwardFillByIndexE | bach/tests/functional/bach/test_df_fillna.py:187-202 | `bfill` in index order gives column E of the expected frame |
| DataFrameFillExamples.ForwardFillByIndexF | bach/tests/functional/bach/test_df_fillna.py:170-185 | `ffill` in index order gives column F of the expected frame |
| DataFrameFillExamples.BackwardFillByIndexF | bach/tests/functional/bach/test_df_fillna.py:187-202 | `bfill` in index order gives column F of the expected frame |
| DataFrameFillExamples.ForwardFillByIndexG | bach/tests/functional/bach/test_df_fillna.py:170-185 | `ffill` in index order gives column G of the expected frame |
| DataFrameFillExamples.BackwardFillByIndexG | bach/tests/functional/bach/test_df_fillna.py:187-202 | `bfill` in index order gives column G of the expected frame |
| DataFrameFillExamples.ForwardFillByABCA | bach/tests/functional/bach/test_df_fillna.py:126-142 | `ffill` along `sort_by=[A, B, C]` gives column A of the expected frame, in sorted order |
| DataFrameFillExamples.BackwardFillByABCA | bach/tests/functional/bach/test_df_fillna.py:144-162 | `bfill` along `sort_by=[A, B, C]` gives column A of the expected frame, in sorted order |
| DataFrameFillExamples.ForwardFillByABCB | bach/tests/functional/bach/test_df_fillna.py:126-142 | `ffill` along `sort_by=[A, B, C]` gives column B of the expected frame, in sorted order |
| DataFrameFillExamples.BackwardFillByABCB | bach/tests/functional/bach/test_df_fillna.py:144-162 | `bfill` along `sort_by=[A, B, C]` gives column B of the expected frame, in sorted order |
| DataFrameFillExamples.ForwardFillByABCC | bach/tests/functional/bach/test_df_fillna.py:126-142 | `ffill` along `sort_by=[A, B, C]` gives column C of the expected frame, in sorted order |
| DataFrameFillExamples.BackwardFillByABCC | bach/tests/functional/bach/test_df_fillna.py:144-162 | `bfill` along `sort_by=[A, B, C]` gives column C of the expected frame, in sorted order |
| DataFrameFillExamples.ForwardFillByABCD | bach/tests/functional/bach/test_df_fillna.py:126-142 | `ffill` along `sort_by=[A, B, C]` gives column D of the expected frame, in sorted order |
| DataFrameFillExamples.BackwardFillByABCD | bach/tests/functional/bach/test_df_fillna.py:144-162 | `bfill` along `sort_by=[A, B, C]` gives column D of the expected frame, in sorted order |
| DataFrameFillExamples.ForwardFillByABCE | bach/tests/functional/bach/test_df_fillna.py:126-142 | `ffill` along `sort_by=[A, B, C]` gives column E of the expected frame, in sorted order |
| DataFrameFillExamples.BackwardFillByABCE | bach/tests/functional/bach/test_df_fillna.py:144-162 | `bfill` along `sort_by=[A, B, C]` gives column E of the expected frame, in sorted order |
| DataFrameFillExamples.ForwardFillByABCF | bach/tests/functional/bach/test_df_fillna.py:126-142 | `ffill` along `sort_by=[A, B, C]` gives column F of the expected frame, in sorted order |
| DataFrameFillExamples.BackwardFillByABCF | bach/tests/functional/bach/test_df_fillna.py:144-162 | `bfill` along `sort_by=[A, B, C]` gives column F of the expected frame, in sorted order |
| DataFrameFillExamples.ForwardFillByABCG | bach/tests/functional/bach/test_df_fillna.py:126-142 | `ffill` along `sort_by=[A, B, C]` gives column G of the expected frame, in sorted order |
| DataFrameFillExamples.BackwardFillByABCG | bach/tests/functional/bach/test_df_fillna.py:144-162 | `bfill` along `sort_by=[A, B, C]` gives column G of the expected frame, in sorted order |
| DataFrameFillExamples.ZeroFillExample | bach/tests/functional/bach/test_df_fillna.py:32-47 | `fillna(value=0)` on columns A to E gives exactly the expected frame |
| DataFrameFillExamples.BothGivenExample | bach/tests/functional/bach/test_df_fillna.py:208-209 | `fillna(value=0, method="ffill")` fails with `cannot specify both "method" and "value".` |
| DataFrameFillExamples.InvalidMethodExample | bach/tests/functional/bach/test_df_fillna.py:211-212 | `fillna(method="random")` fails with `"random" is not a valid propagation method.` |
| DataFrameFillExamples.UnsortedExample | bach/tests/functional/bach/test_df_fillna.py:214-215 | `fillna(method="ffill")` on the unsorted frame fails with `dataframe must be sorted` |
| DataFrameFill.SortSorted | bach/tests/functional/bach/test_df_fillna.py:166-168 | sorting rows already in key order leaves them as they are |
| DataFrameFillExamples.SortIndexOfData | bach/tests/functional/bach/test_df_fillna.py:166-168 | `sort_index()` of the loaded frame keeps its row order |
| DataFrameFillExamples.ComparisonsABC | bach/tests/functional/bach/test_df_fillna.py:109-124 | the comparisons of the eight rows under `[A desc, B asc, C desc]`, NULLs last |
| DataFrameFillExamples.ResolveABC | bach/tests/functional/bach/test_df_fillna.py:106-107 | `sort_by=[A, B, C], ascending=[False, True, False]` resolves to columns 0, 1, 2 in those directions |
| DataFrameFillExamples.SortOfEight | bach/tests/functional/bach/test_df_fillna.py:109-124 | eight rows with the comparisons of the test sort into the order 1, 5, 3, 2, 7, 0, 4, 6 |
| DataFrameFillExamples.SortByABC | bach/tests/functional/bach/test_df_fillna.py:109-124 | `sort_values(by=[A, B, C], ascending=[False, True, False])` puts the rows in order 1, 5, 3, 2, 7, then the all-NULL-key rows 0, 4, 6 |
| DataFrameFillExamples.ByIndexInOrder | bach/tests/functional/bach/test_df_fillna.py:166-168 | the loaded rows are in the index order the sorted frame remembers |
| DataFrameFillExamples.FillByIndexExample | bach/tests/functional/bach/test_df_fillna.py:166-202 | after `sort_index()`, `ffill` and `bfill` succeed, keep the rows in index order 0 to 7, and fill each column in that order |
| DataFrameFillExamples.StoredOnASorts | bach/tests/functional/bach/test_df_fillna.py:109-124 | a frame stored as A = 5, NULL, 1 sorts on A ascending to 1, 5, NULL |
| DataFrameFillExamples.SortedOnABackwardFill | bach/tests/functional/bach/test_df_fillna.py:144-162 | `bfill` along A = 1, 5, NULL leaves the trailing NULL as it is |
| DataFrameFillExamples.FillAlongRememberedOrder | bach/tests/functional/bach/test_df_fillna.py:166-202 | a frame sorted on A ascending propagates along A, not along its stored rows: `bfill` over A = 5, NULL, 1 leaves the NULL row NULL |
| DataFrameFillExamples.FillByABCExample | bach/tests/functional/bach/test_df_fillna.py:126-162 | with `sort_by`, `ffill` and `bfill` succeed and fill each column in the sorted order |
| TrackerValidation.Prefix | tracker/core/developer-tools/tests/ValidationRules.test.ts:57-74 | the prefix is `｢objectiv｣` without a log prefix and `｢objectiv:<logPrefix>｣` with one |
| TrackerValidation.ErrorMessagePrefixed | tracker/core/developer-tools/tests/ValidationRules.test.ts:49-54 | every error message starts with its prefix |
| TrackerValidation.PrefixIdentifiesLogPrefix | tracker/core/developer-tools/tests/ValidationRules.test.ts:57-74 | different log prefixes give different message prefixes |
| TrackerValidation.Occurrences | tracker/core/developer-tools/tests/ValidationRules.test.ts:201-224 | the number of occurrences of a context type, 0 exactly when it is absent |
| TrackerValidation.FirstIndex | tracker/core/developer-tools/tests/ValidationRules.test.ts:226-250 | the index of the first occurrence of a context type, None exactly when it is absent |
| TrackerValidation.DuplicatesAreRepeated | tracker/core/developer-tools/tests/ValidationRules.test.ts:115-146 | a context (type and id) is reported as duplicated exactly when it occurs at least twice |
| TrackerValidation.DuplicatesAreDistinct | tracker/core/developer-tools/tests/ValidationRules.test.ts:115-146 | no duplicated context is reported twice |
| TrackerValidation.NoDuplicatesIffDistinct | tracker/core/developer-tools/tests/ValidationRules.test.ts:115-146 | there is nothing to report exactly when all global contexts differ |
| TrackerValidation.RepeatedEntryCounts | tracker/core/developer-tools/tests/ValidationRules.test.ts:115-146 | a context found at two indexes occurs at least twice |
| TrackerValidation.RepeatedEntry | tracker/core/developer-tools/tests/ValidationRules.test.ts:115-146 | a context occurring at least twice is found at two distinct indexes |
| TrackerValidation.FindIn | tracker/core/developer-tools/tests/ValidationRules.test.ts:115-146 | an index holding the given context |
| TrackerValidation.Validate | tracker/core/developer-tools/tests/ValidationRules.test.ts:39-55 | one message per problem found |
| TrackerValidation.MessagesArePrefixed | tracker/core/developer-tools/tests/ValidationRules.test.ts:57-74 | every message of a rule starts with the rule's prefix |
| TrackerValidation.SkipsUnmatchedEvents | tracker/core/developer-tools/tests/ValidationRules.test.ts:25-37 | a rule whose `eventMatches` rejects the event finds no problem and emits nothing |
| TrackerValidation.ValidateIffConforms | tracker/core/developer-tools/tests/ValidationRules.test.ts:39-250 | a rule that applies emits nothing exactly when the event meets its requirement; missing and location rules emit at most one message, the unique rule one per duplicated context |
| TrackerValidation.ProblemsOfEachRule | tracker/core/developer-tools/tests/ValidationRules.test.ts:39-250 | each problem is reported exactly when its condition holds: missing global context, each duplicated (type, id), missing, repeated (`once`) and misplaced (`position`) location context |
| TrackerValidation.MockConsole.constructor | tracker/core/developer-tools/tests/ValidationRules.test.ts:21 | a fresh console mock has recorded no call |
| TrackerValidation.MockConsole.ResetAllMocks | tracker/core/developer-tools/tests/ValidationRules.test.ts:32 | `jest.resetAllMocks()` forgets every recorded call |
| TrackerValidation.MockConsole.GroupCollapsed | tracker/core/developer-tools/tests/ValidationRules.test.ts:49-54 | a `groupCollapsed` call is recorded after the earlier ones |
| TrackerValidation.LogErrors | tracker/core/developer-tools/tests/ValidationRules.test.ts:135-146 | logging messages records one `groupCollapsed` call per message, in order |
| TrackerValidation.ValidateOn | tracker/core/developer-tools/tests/ValidationRules.test.ts:45-50 | `validate(e)` records exactly the messages of `Validate`, after the earlier calls |
| TrackerValidationExamples.CallsFor | tracker/core/developer-tools/tests/ValidationRules.test.ts:45-49 | after a reset, `validate` leaves exactly the messages of `Validate` on the console |
| TrackerValidationExamples.SkipsWhenEventDoesNotMatch | tracker/core/developer-tools/tests/ValidationRules.test.ts:25-37 | with `eventMatches: () => false` none of the three rules logs anything |
| TrackerValidationExamples.ValidateFindsOne | tracker/core/developer-tools/tests/ValidationRules.test.ts:39-55 | one problem found gives exactly its one message |
| TrackerValidationExamples.ValidateFindsTwo | tracker/core/developer-tools/tests/ValidationRules.test.ts:115-146 | two problems found give exactly their two messages, in order |
| TrackerValidationExamples.TwoDuplicates | tracker/core/developer-tools/tests/ValidationRules.test.ts:115-146 | in `[a, a, b, b]` the duplicates are `a` then `b` |
| TrackerValidationExamples.MissingGlobalText | tracker/core/developer-tools/tests/ValidationRules.test.ts:49-54 | the layout of the missing-global-context message |
| TrackerValidationExamples.DuplicatedGlobalText | tracker/core/developer-tools/tests/ValidationRules.test.ts:107-113 | the layout of the duplicated-global-context message |
| TrackerValidationExamples.MissingLocationText | tracker/core/developer-tools/tests/ValidationRules.test.ts:174-180 | the layout of the missing-location-context message |
| TrackerValidationExamples.RepeatedLocationText | tracker/core/developer-tools/tests/ValidationRules.test.ts:218-224 | the layout of the repeated-location-context message |
| TrackerValidationExamples.MisplacedLocationText | tracker/core/developer-tools/tests/ValidationRules.test.ts:244-250 | the layout of the misplaced-location-context message |
| TrackerValidationExamples.MissingGlobalContext | tracker/core/developer-tools/tests/ValidationRules.test.ts:39-55 | a missing PathContext gives exactly the expected message |
| TrackerValidationExamples.MissingGlobalContextWithPrefix | tracker/core/developer-tools/tests/ValidationRules.test.ts:57-74 | with `logPrefix: "TestPrefix"` the same message carries `｢objectiv:TestPrefix｣` |
| TrackerValidationExamples.DuplicatedGlobalContextWithPrefix | tracker/core/developer-tools/tests/ValidationRules.test.ts:91-113 | two equal PathContexts give exactly one prefixed "Only one PathContext(id: test)" message |
| TrackerValidationExamples.TwoDuplicatedGlobalContexts | tracker/core/developer-tools/tests/ValidationRules.test.ts:115-146 | two duplicated pairs give exactly two messages, InputValueContext then PathContext |
| TrackerValidationExamples.MissingLocationContext | tracker/core/developer-tools/tests/ValidationRules.test.ts:164-180 | a missing ContentContext gives exactly the expected location-stack message |
| TrackerValidationExamples.MissingLocationContextWithPrefix | tracker/core/developer-tools/tests/ValidationRules.test.ts:182-199 | with `logPrefix` the same message carries `｢objectiv:TestPrefix｣` |
| TrackerValidationExamples.RepeatedLocationContext | tracker/core/developer-tools/tests/ValidationRules.test.ts:201-224 | with `once: true` two ContentContexts give exactly one "Only one ContentContext" message |
| TrackerValidationExamples.MisplacedLocationContext | tracker/core/developer-tools/tests/ValidationRules.test.ts:226-250 | with `position: 0` and the ContentContext at index 1, exactly one "wrong position" message |

## Left out

- SQL generation, rendering and execution on Postgres or BigQuery, the engine fixtures, `from_pandas`/`to_pandas`, `materialize`, `view_sql` and the `print` of the special-characters test: these are I/O against a database, and the model computes on in-memory values.
- Slicing a value that is not a list (`test_series_json.py:194-211`): it raises on Postgres and gives `[]` on BigQuery. `SliceItems` is defined on a list's elements only.
- The BigQuery restriction on double quotes in keys (`test_series_json.py:124-125`), a dialect limitation.
- `mixed_column[2]` (`test_series_json.py:45-48`) reads one row of a series. In the model that is sequence indexing, so there is no separate member for it.
- The cross-checks against pandas (`test_df_fillna.py:48-53`, `56-99`): they compare with a foreign library.
- The `astype('int64')` cast (`test_df_fillna.py:30`) and datetime handling. Dates are seconds since 1970 and only ever compared.
- JSON numbers are integers; floating point is not modelled.
- The `platform` option of the rule factories: every test passes `TrackerPlatform.CORE`, and no behaviour depends on it.
- The `%c` of each message and the `'color:red'` style argument, `TrackerConsole.setImplementation` and the other console methods. These are logging plumbing; the model keeps only the message text and the `groupCollapsed` calls.
- Context attributes other than type and id (the `value` of an InputValueContext). A context is keyed by type and id, as the duplicate messages show.
- SeriesJson.Contains: does not model Postgres's extra rule that a top-level list contains a bare scalar element. The tests compare only objects and lists.
- DataFrameFill.CompareStrings: compares by character code, not by a database collation. The test data holds only single lower-case letters.
- DataFrameFill.SortValues: ties on every key keep the frame's row order (a stable sort) rather than being broken by the index columns. On the frame as loaded the two coincide. The tests write the rows whose keys are all NULL as ANY, so their order is not pinned down (`test_df_fillna.py:119-122`).
- DataFrameFill.Message: the text for an unknown `sort_by` column is the model's own; no test pins it.
- DataFrameFill.FillNa: with neither `value` nor `method`, the frame is returned unchanged; no test pins this case.
- DataFrameFill.FillNa: a propagation without `sort_by` re-sorts the rows on the keys the frame remembers, which leaves the rows of a frame built by `sort_values` or `sort_index` in place (`FillNaInPlace`). If those keys name a missing column it reports the unknown-column error; no frame built by the two sorts has such keys.
- TrackerValidation.Problems: the unique rule reports duplicated contexts in the order in which they first repeat. The test checks each message with `toHaveBeenCalledWith`, which does not fix an order.
- TrackerValidation.Problems: the location rule checks `position` against the first occurrence of the context and reports at most one problem per event (missing, then repeated, then misplaced). Each test triggers only one of them.
- TrackerValidationExamples: the expected messages are written as concatenations of their literal pieces, split where the context name, event name and log prefix are substituted. The text is the same as the tests'.

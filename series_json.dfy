/**
 * The JSON accessors of a bach json series: member lookup (`get_value`, `json[key]`), list
 * indexing (`json[i]`, negative indexes counting from the end), list slicing with integer and
 * query-document bounds (`json[a:b]`), `get_array_length` and the structural containment
 * comparison `doc <= series`.
 *
 * A series is a column of optional JSON values: `None` is SQL NULL. Each accessor maps every
 * row on its own, and an accessor applied to NULL gives NULL.
 */
module SeriesJson {
  import opened Wrappers

  /** A JSON value. Objects compare like dictionaries: member order does not matter. */
  datatype Json =
    | JNull
    | JBool(b: bool)
    | JNum(n: int)
    | JStr(s: string)
    | JList(items: seq<Json>)
    | JObject(fields: map<string, Json>)

  /** A column of a data frame holding JSON values, `None` being SQL NULL. */
  type Series = seq<Option<Json>>

  // ---------------------------------------------------------------------------------------
  // Containment
  // ---------------------------------------------------------------------------------------

  /**
   * `doc <= container`: `doc` is structurally contained in `container`. An object contains
   * an object when it has each of its members and each member value contains the other's;
   * a list contains a list when each element of the second is contained in some element of
   * the first; any other pair is contained only when equal.
   */
  predicate Contains(container: Json, doc: Json)
    decreases doc, 0
  {
    match doc
    case JObject(d) =>
      container.JObject? &&
      forall k | k in d :: k in container.fields && Contains(container.fields[k], d[k])
    case JList(ys) =>
      container.JList? &&
      forall j | 0 <= j < |ys| :: SomeElementContains(container.items, ys[j])
    case _ => container == doc
  }

  /** Some element of `xs` contains `doc`. */
  predicate SomeElementContains(xs: seq<Json>, doc: Json)
    decreases doc, 1
  {
    exists i | 0 <= i < |xs| :: Contains(xs[i], doc)
  }

  /** Every value contains itself. */
  lemma {:induction false} ContainsReflexive(v: Json)
    ensures Contains(v, v)
    decreases v
  {
    match v
    case JObject(m) =>
      forall k | k in m
        ensures Contains(m[k], m[k])
      {
        ContainsReflexive(m[k]);
      }
    case JList(xs) =>
      forall j | 0 <= j < |xs|
        ensures SomeElementContains(xs, xs[j])
      {
        ContainsReflexive(xs[j]);
      }
    case _ =>
  }

  /** Containment is transitive. */
  lemma {:induction false} ContainsTransitive(a: Json, b: Json, c: Json)
    requires Contains(a, b) && Contains(b, c)
    ensures Contains(a, c)
    decreases c
  {
    match c
    case JObject(mc) =>
      forall k | k in mc
        ensures k in a.fields && Contains(a.fields[k], mc[k])
      {
        ContainsTransitive(a.fields[k], b.fields[k], mc[k]);
      }
    case JList(zs) =>
      forall j | 0 <= j < |zs|
        ensures SomeElementContains(a.items, zs[j])
      {
        assert SomeElementContains(b.items, zs[j]);
        var i' :| 0 <= i' < |b.items| && Contains(b.items[i'], zs[j]);
        assert SomeElementContains(a.items, b.items[i']);
        var i :| 0 <= i < |a.items| && Contains(a.items[i], b.items[i']);
        ContainsTransitive(a.items[i], b.items[i'], zs[j]);
      }
    case _ =>
  }

  /** An object contains each of its sub-objects. */
  lemma SubObjectContained(m: map<string, Json>, d: map<string, Json>)
    requires forall k | k in d :: k in m && m[k] == d[k]
    ensures Contains(JObject(m), JObject(d))
  {
    forall k | k in d
      ensures Contains(m[k], d[k])
    {
      ContainsReflexive(d[k]);
    }
  }

  /** A list contains the one-element list of each of its elements. */
  lemma ElementContained(xs: seq<Json>, i: nat)
    requires i < |xs|
    ensures Contains(JList(xs), JList([xs[i]]))
  {
    ContainsReflexive(xs[i]);
  }

  /** A list whose elements are all scalars contains exactly the lists of its elements. */
  lemma ScalarListContainment(xs: seq<Json>, ys: seq<Json>)
    requires forall i | 0 <= i < |xs| :: !xs[i].JList? && !xs[i].JObject?
    requires forall j | 0 <= j < |ys| :: !ys[j].JList? && !ys[j].JObject?
    ensures Contains(JList(xs), JList(ys)) <==> forall j | 0 <= j < |ys| :: ys[j] in xs
  {
    if forall j | 0 <= j < |ys| :: ys[j] in xs {
      forall j | 0 <= j < |ys|
        ensures SomeElementContains(xs, ys[j])
      {
        var i :| 0 <= i < |xs| && xs[i] == ys[j];
        assert Contains(xs[i], ys[j]);
      }
    }
    if Contains(JList(xs), JList(ys)) {
      forall j | 0 <= j < |ys|
        ensures ys[j] in xs
      {
        assert SomeElementContains(xs, ys[j]);
        var i :| 0 <= i < |xs| && Contains(xs[i], ys[j]);
        assert xs[i] == ys[j];
      }
    }
  }

  // ---------------------------------------------------------------------------------------
  // Member lookup and list indexing
  // ---------------------------------------------------------------------------------------

  /**
   * `json.get_value(key)`: the member named `key` of an object. A missing key or a value that
   * is not an object gives NULL, not an error. The key is one literal member name: dots and
   * brackets in it are not a path.
   */
  function GetValue(v: Json, key: string): Option<Json>
  {
    if v.JObject? && key in v.fields then Some(v.fields[key]) else None
  }

  /** `json[i]`: the element at index `i` of a list; a negative index counts from the end. */
  function GetIndex(v: Json, i: int): Option<Json>
  {
    if !v.JList? then None
    else if 0 <= i < |v.items| then Some(v.items[i])
    else if -|v.items| <= i < 0 then Some(v.items[|v.items| + i])
    else None
  }

  /** `json.get_array_length()`: the number of elements of a list; NULL for any other value. */
  function GetArrayLength(v: Json): Option<nat>
  {
    if v.JList? then Some(|v.items|) else None
  }

  /** The argument of `json[...]` other than a slice. */
  datatype Accessor = AtIndex(index: int) | AtKey(key: string)

  /** `json[i]` and `json["key"]`. */
  function GetItem(v: Json, a: Accessor): Option<Json>
  {
    match a
    case AtIndex(i) => GetIndex(v, i)
    case AtKey(k) => GetValue(v, k)
  }

  /** A string key selects exactly what `get_value` with that key selects. */
  lemma GetItemKeyIsGetValue(v: Json, key: string)
    ensures GetItem(v, AtKey(key)) == GetValue(v, key)
  {
  }

  /**
   * The lookup sees the one member whose name is exactly `key`: two objects that agree on
   * that member (or both lack it) give the same result, whatever `key` looks like and
   * whatever the other members are.
   */
  lemma GetValueIsLiteral(m1: map<string, Json>, m2: map<string, Json>, key: string)
    requires key in m1 <==> key in m2
    requires key in m1 ==> m1[key] == m2[key]
    ensures GetValue(JObject(m1), key) == GetValue(JObject(m2), key)
    ensures key in m1 ==> GetValue(JObject(m1), key) == Some(m1[key])
  {
  }

  /**
   * An index is answered exactly when it lies within the list's length, counted from either
   * end, and a negative index names the same element as its length-relative counterpart.
   */
  lemma GetIndexWithinLength(v: Json, i: int)
    ensures GetIndex(v, i).Some? <==>
            GetArrayLength(v).Some? && -(GetArrayLength(v).value as int) <= i < GetArrayLength(v).value
    ensures v.JList? && -|v.items| <= i < 0 ==> GetIndex(v, i) == GetIndex(v, |v.items| + i)
  {
  }

  // ---------------------------------------------------------------------------------------
  // Slicing
  // ---------------------------------------------------------------------------------------

  /** A bound of a slice: left out, an integer offset, or a query document. */
  datatype Bound = Absent | Offset(i: int) | Query(doc: Json)

  /** `json[lower:upper]`. */
  datatype Slice = Slice(lower: Bound, upper: Bound)

  /**
   * The index of the first element at or after `from` that contains `doc`, or None when no
   * element from there on contains it.
   */
  function FirstMatch(xs: seq<Json>, doc: Json, from: nat): (r: Option<nat>)
    requires from <= |xs|
    ensures r.Some? ==> from <= r.value < |xs| && Contains(xs[r.value], doc)
    ensures r.Some? ==> forall j | from <= j < r.value :: !Contains(xs[j], doc)
    ensures r.None? ==> forall j | from <= j < |xs| :: !Contains(xs[j], doc)
    decreases |xs| - from
  {
    if from == |xs| then None
    else if Contains(xs[from], doc) then Some(from)
    else FirstMatch(xs, doc, from + 1)
  }

  /** An integer offset as a position in a list of length `n`: negative counts from the end. */
  function Clip(i: int, n: nat): (r: nat)
    ensures r <= n
  {
    if i < 0 then (if n + i < 0 then 0 else n + i)
    else if i > n then n
    else i
  }

  /** Where a slice starts; None when a query bound matches no element. */
  function LowerIndex(xs: seq<Json>, b: Bound): (r: Option<nat>)
    ensures r.Some? ==> r.value <= |xs|
  {
    match b
    case Absent => Some(0)
    case Offset(i) => Some(Clip(i, |xs|))
    case Query(d) => FirstMatch(xs, d, 0)
  }

  /**
   * Where a slice ends (exclusive); None when a query bound matches no element. A query
   * upper bound keeps the element it matches.
   */
  function UpperIndex(xs: seq<Json>, b: Bound): (r: Option<nat>)
    ensures r.Some? ==> r.value <= |xs|
  {
    match b
    case Absent => Some(|xs|)
    case Offset(i) => Some(Clip(i, |xs|))
    case Query(d) =>
      match FirstMatch(xs, d, 0)
      case Some(k) => Some(k + 1)
      case None => None
  }

  /** `s` is a contiguous run of `xs`. */
  predicate IsRun(s: seq<Json>, xs: seq<Json>)
  {
    exists lo, hi | 0 <= lo <= hi <= |xs| :: s == xs[lo..hi]
  }

  /** `json[lower:upper]` on a list value whose elements are `xs`. */
  function SliceItems(xs: seq<Json>, s: Slice): (r: seq<Json>)
    ensures IsRun(r, xs)
  {
    assert xs[0..0] == [];
    match (LowerIndex(xs, s.lower), UpperIndex(xs, s.upper))
    case (Some(lo), Some(hi)) => if lo < hi then xs[lo..hi] else []
    case _ => []
  }

  /** `json[:]` is the identity. */
  lemma SliceWhole(xs: seq<Json>)
    ensures SliceItems(xs, Slice(Absent, Absent)) == xs
  {
    assert xs[0..|xs|] == xs;
  }

  /** `json[1:]` drops the first element. */
  lemma SliceDropFirst(xs: seq<Json>)
    ensures SliceItems(xs, Slice(Offset(1), Absent)) == if xs == [] then [] else xs[1..]
  {
  }

  /**
   * `json[1:-1]` drops the first and the last element; a list of at most two elements
   * gives the empty list.
   */
  lemma SliceDropFirstAndLast(xs: seq<Json>)
    ensures SliceItems(xs, Slice(Offset(1), Offset(-1))) ==
            if |xs| <= 2 then [] else xs[1..|xs| - 1]
  {
  }

  /** `json[i:i+1]` is the one-element list of `json[i]` (for `i == -1`, `json[-1:]`). */
  lemma SliceOfOneAgreesWithIndex(xs: seq<Json>, i: int)
    requires -|xs| <= i < |xs|
    ensures GetIndex(JList(xs), i).Some?
    ensures SliceItems(xs, if i == -1 then Slice(Offset(i), Absent) else Slice(Offset(i), Offset(i + 1)))
            == [GetIndex(JList(xs), i).value]
  {
  }

  /**
   * A query-document lower bound starts the slice at the first element that contains the
   * document: it acts as the integer bound of that index.
   */
  lemma QueryLowerBound(xs: seq<Json>, doc: Json, k: nat, upper: Bound)
    requires k < |xs| && Contains(xs[k], doc)
    requires forall j | 0 <= j < k :: !Contains(xs[j], doc)
    ensures SliceItems(xs, Slice(Query(doc), upper)) == SliceItems(xs, Slice(Offset(k), upper))
  {
    var r := FirstMatch(xs, doc, 0);
    assert r == Some(k);
  }

  /**
   * A query-document upper bound is inclusive: it acts as the integer bound one past the
   * first element that contains the document.
   */
  lemma QueryUpperBound(xs: seq<Json>, doc: Json, k: nat, lower: Bound)
    requires k < |xs| && Contains(xs[k], doc)
    requires forall j | 0 <= j < k :: !Contains(xs[j], doc)
    ensures SliceItems(xs, Slice(lower, Query(doc))) == SliceItems(xs, Slice(lower, Offset(k + 1)))
  {
    var r := FirstMatch(xs, doc, 0);
    assert r == Some(k);
  }

  /** A query-document bound, on either side, that no element contains gives the empty list. */
  lemma QueryNoMatch(xs: seq<Json>, doc: Json, other: Bound)
    requires forall j | 0 <= j < |xs| :: !Contains(xs[j], doc)
    ensures SliceItems(xs, Slice(Query(doc), other)) == []
    ensures SliceItems(xs, Slice(other, Query(doc))) == []
  {
    var r := FirstMatch(xs, doc, 0);
    assert r.None?;
  }

  // ---------------------------------------------------------------------------------------
  // Series: every accessor applied row by row, NULL staying NULL
  // ---------------------------------------------------------------------------------------

  /** `series.json[a]` / `series.json.get_value(k)`. */
  function SeriesGetItem(col: Series, a: Accessor): (r: Series)
    ensures |r| == |col|
    ensures forall i | 0 <= i < |col| :: r[i] == if col[i].None? then None else GetItem(col[i].value, a)
  {
    seq(|col|, i requires 0 <= i < |col| => if col[i].None? then None else GetItem(col[i].value, a))
  }

  /** `doc <= series`: per row, NULL stays NULL. */
  function SeriesContains(col: Series, doc: Json): (r: seq<Option<bool>>)
    ensures |r| == |col|
    ensures forall i | 0 <= i < |col| :: r[i] == if col[i].None? then None else Some(Contains(col[i].value, doc))
  {
    seq(|col|, i requires 0 <= i < |col| => if col[i].None? then None else Some(Contains(col[i].value, doc)))
  }

  /** `series.json[lower:upper]`: the slice applied to every row of a column holding only lists. */
  function SliceRows(rows: seq<seq<Json>>, s: Slice): (r: seq<seq<Json>>)
    ensures |r| == |rows|
    ensures forall i | 0 <= i < |rows| :: IsRun(r[i], rows[i])
  {
    seq(|rows|, i requires 0 <= i < |rows| => SliceItems(rows[i], s))
  }
}

/**
 * The json series of the functional tests, and what each accessor gives on them.
 *
 * `MixedColumn` holds an object, a list of strings, a nested object and a location stack;
 * `ListColumn` holds only lists. Their rows are read back from the values the tests expect
 * (`json[:]` gives `ListColumn` whole; `mixed_column[2]` is printed in full).
 */
module SeriesJsonExamples {
  import opened Wrappers
  import opened SeriesJson

  function Str(s: string): Json { JStr(s) }

  /** An object with one member. */
  function Obj1(k: string, v: string): Json { JObject(map[k := JStr(v)]) }

  /** A context object `{"_type": t, "id": id}`. */
  function Ctx(t: string, id: string): Json
  {
    JObject(map["_type" := JStr(t), "id" := JStr(id)])
  }

  /** An object whose member `k` is a different string does not contain `{k: v}`. */
  lemma MemberDiffers(c: Json, k: string, v: string)
    requires c.JObject? && k in c.fields && c.fields[k].JStr? && c.fields[k].s != v
    ensures !Contains(c, Obj1(k, v))
  {
    assert !Contains(c.fields[k], JStr(v));
  }

  /** An object without member `k` does not contain `{k: v}`. */
  lemma MemberMissing(c: Json, k: string, v: string)
    requires c.JObject? && k !in c.fields
    ensures !Contains(c, Obj1(k, v))
  {
    assert k in Obj1(k, v).fields;
  }

  function LocationStack(): seq<Json>
  {
    [Ctx("WebDocumentContext", "#document"), Ctx("SectionContext", "home"),
     Ctx("SectionContext", "top-10"), Ctx("ItemContext", "5o7Wv5Q5ZE")]
  }

  function MixedColumn(): Series
  {
    [Some(Obj1("a", "b")),
     Some(JList([Str("a"), Str("b"), Str("c"), Str("d")])),
     Some(JObject(map["a" := Str("b"), "c" := Obj1("a", "c")])),
     Some(JList(LocationStack()))]
  }

  /** The rows of the list column, one function each so that a proof unfolds only its own. */
  function ObjectsRow(): seq<Json> { [Obj1("a", "b"), Obj1("c", "d")] }

  function StringsRow(): seq<Json> { [Str("a"), Str("b"), Str("c"), Str("d")] }

  function PairsRow(): seq<Json> { [Ctx("a", "b"), Ctx("c", "d"), Ctx("e", "f")] }

  function ListItems(): seq<seq<Json>>
  {
    [ObjectsRow(), StringsRow(), PairsRow(), LocationStack()]
  }

  /** `get_value('a')` and `json['a']` on the mixed column. */
  lemma GetValueExample()
    ensures SeriesGetItem(MixedColumn(), AtKey("a")) == [Some(Str("b")), None, Some(Str("b")), None]
  {
  }

  /** `json[0]` and `json[-2]` on the mixed column: NULL for the two objects. */
  lemma GetIndexExample()
    ensures SeriesGetItem(MixedColumn(), AtIndex(0)) ==
            [None, Some(Str("a")), None, Some(Ctx("WebDocumentContext", "#document"))]
    ensures SeriesGetItem(MixedColumn(), AtIndex(-2)) ==
            [None, Some(Str("c")), None, Some(Ctx("SectionContext", "top-10"))]
  {
  }

  /** `{"a": "b"} <= mixed_column`: true for the two objects that have member "a" = "b". */
  lemma ObjectContainmentExample()
    ensures SeriesContains(MixedColumn(), Obj1("a", "b")) ==
            [Some(true), Some(false), Some(true), Some(false)]
  {
    var col := MixedColumn();
    SubObjectContained(col[0].value.fields, map["a" := Str("b")]);
    SubObjectContained(col[2].value.fields, map["a" := Str("b")]);
  }

  /** `["a"] <= mixed_column`: true only for the list holding the string "a". */
  lemma ListContainmentExample()
    ensures SeriesContains(MixedColumn(), JList([Str("a")])) ==
            [Some(false), Some(true), Some(false), Some(false)]
  {
    var col := MixedColumn();
    ElementContained(col[1].value.items, 0);
    var xs := LocationStack();
    forall j | 0 <= j < |xs|
      ensures !Contains(xs[j], Str("a"))
    {
    }
    assert !SomeElementContains(xs, Str("a"));
  }

  /** `get_array_length()` on the list column. */
  lemma ArrayLengthExample()
    ensures seq(4, i requires 0 <= i < 4 => GetArrayLength(JList(ListItems()[i]))) ==
            [Some(2), Some(4), Some(3), Some(4)]
  {
  }

  /** `json[1:]` on the list column drops the first element of each row. */
  lemma DropFirstExample()
    ensures SliceRows(ListItems(), Slice(Offset(1), Absent)) ==
            [[Obj1("c", "d")],
             [Str("b"), Str("c"), Str("d")],
             [Ctx("c", "d"), Ctx("e", "f")],
             LocationStack()[1..]]
  {
    var rows := ListItems();
    forall i | 0 <= i < 4
      ensures SliceItems(rows[i], Slice(Offset(1), Absent)) == rows[i][1..]
    {
      SliceDropFirst(rows[i]);
    }
  }

  /** `json[1:-1]` on the list column drops the first and the last element of each row. */
  lemma DropFirstAndLastExample()
    ensures SliceRows(ListItems(), Slice(Offset(1), Offset(-1))) ==
            [[], [Str("b"), Str("c")], [Ctx("c", "d")], LocationStack()[1..3]]
  {
    var rows := ListItems();
    forall i | 0 <= i < 4
      ensures SliceItems(rows[i], Slice(Offset(1), Offset(-1))) == rows[i][1..|rows[i]| - 1]
    {
      SliceDropFirstAndLast(rows[i]);
    }
    assert rows[1][1..3] == [Str("b"), Str("c")];
    assert rows[2][1..2] == [Ctx("c", "d")];
  }

  /** `json[:]` on the list column gives every row whole. */
  lemma WholeSliceExample()
    ensures SliceRows(ListItems(), Slice(Absent, Absent)) == ListItems()
  {
    var rows := ListItems();
    forall i | 0 <= i < 4
      ensures SliceItems(rows[i], Slice(Absent, Absent)) == rows[i]
    {
      SliceWhole(rows[i]);
    }
  }

  /** The location stack from its first section onwards. */
  lemma QueryLowerOnStack()
    ensures SliceItems(LocationStack(), Slice(Query(Obj1("_type", "SectionContext")), Absent)) ==
            LocationStack()[1..]
  {
    var xs, doc := LocationStack(), Obj1("_type", "SectionContext");
    MemberDiffers(xs[0], "_type", "SectionContext");
    SubObjectContained(xs[1].fields, doc.fields);
    QueryLowerBound(xs, doc, 1, Absent);
    SliceDropFirst(xs);
  }

  /** No context in a row without a section: the lower query bound gives the empty list. */
  lemma QueryLowerNoSection()
    ensures SliceItems(ObjectsRow(), Slice(Query(Obj1("_type", "SectionContext")), Absent)) == []
    ensures SliceItems(StringsRow(), Slice(Query(Obj1("_type", "SectionContext")), Absent)) == []
    ensures SliceItems(PairsRow(), Slice(Query(Obj1("_type", "SectionContext")), Absent)) == []
  {
    QueryLowerNoSectionInObjects();
    QueryLowerNoSectionInPairs();
    QueryNoMatchInStrings(Obj1("_type", "SectionContext"), Absent);
  }

  /** A row of strings has no element that contains an object. */
  lemma QueryNoMatchInStrings(doc: Json, other: Bound)
    requires doc.JObject?
    ensures SliceItems(StringsRow(), Slice(Query(doc), other)) == []
    ensures SliceItems(StringsRow(), Slice(other, Query(doc))) == []
  {
    var xs := StringsRow();
    forall j | 0 <= j < |xs|
      ensures !Contains(xs[j], doc)
    {
    }
    QueryNoMatch(xs, doc, other);
  }

  lemma QueryLowerNoSectionInObjects()
    ensures SliceItems(ObjectsRow(), Slice(Query(Obj1("_type", "SectionContext")), Absent)) == []
  {
    var xs, doc := ObjectsRow(), Obj1("_type", "SectionContext");
    forall j | 0 <= j < |xs|
      ensures !Contains(xs[j], doc)
    {
      MemberMissing(xs[j], "_type", "SectionContext");
    }
    QueryNoMatch(xs, doc, Absent);
  }

  lemma QueryLowerNoSectionInPairs()
    ensures SliceItems(PairsRow(), Slice(Query(Obj1("_type", "SectionContext")), Absent)) == []
  {
    var xs, doc := PairsRow(), Obj1("_type", "SectionContext");
    forall j | 0 <= j < |xs|
      ensures !Contains(xs[j], doc)
    {
      MemberDiffers(xs[j], "_type", "SectionContext");
    }
    QueryNoMatch(xs, doc, Absent);
  }

  /** On the third row the element with id "d" is found at index 1 and is kept. */
  lemma QueryUpperOnThirdRow()
    ensures SliceItems(PairsRow(), Slice(Offset(1), Query(Obj1("id", "d")))) == [Ctx("c", "d")]
  {
    var xs, d := PairsRow(), Obj1("id", "d");
    MemberDiffers(xs[0], "id", "d");
    SubObjectContained(xs[1].fields, d.fields);
    QueryUpperBound(xs, d, 1, Offset(1));
    assert xs[1..2] == [Ctx("c", "d")];
  }

  /** Both bounds queries on the third row: from the first element of type "a" to id "d". */
  lemma QueryBothOnThirdRow()
    ensures SliceItems(PairsRow(), Slice(Query(Obj1("_type", "a")), Query(Obj1("id", "d")))) ==
            [Ctx("a", "b"), Ctx("c", "d")]
  {
    var xs, a, d := PairsRow(), Obj1("_type", "a"), Obj1("id", "d");
    MemberDiffers(xs[0], "id", "d");
    SubObjectContained(xs[1].fields, d.fields);
    QueryUpperBound(xs, d, 1, Query(a));
    SubObjectContained(xs[0].fields, a.fields);
    QueryLowerBound(xs, a, 0, Offset(2));
    assert xs[0..2] == [Ctx("a", "b"), Ctx("c", "d")];
  }

  /** No element with id "d" in the other rows: the upper query bound gives the empty list. */
  lemma QueryUpperNoMatch(lower: Bound)
    ensures SliceItems(ObjectsRow(), Slice(lower, Query(Obj1("id", "d")))) == []
    ensures SliceItems(StringsRow(), Slice(lower, Query(Obj1("id", "d")))) == []
    ensures SliceItems(LocationStack(), Slice(lower, Query(Obj1("id", "d")))) == []
  {
    QueryUpperNoMatchInObjects(lower);
    QueryUpperNoMatchOnStack(lower);
    QueryNoMatchInStrings(Obj1("id", "d"), lower);
  }

  lemma QueryUpperNoMatchInObjects(lower: Bound)
    ensures SliceItems(ObjectsRow(), Slice(lower, Query(Obj1("id", "d")))) == []
  {
    var xs, doc := ObjectsRow(), Obj1("id", "d");
    forall j | 0 <= j < |xs|
      ensures !Contains(xs[j], doc)
    {
      MemberMissing(xs[j], "id", "d");
    }
    QueryNoMatch(xs, doc, lower);
  }

  lemma QueryUpperNoMatchOnStack(lower: Bound)
    ensures SliceItems(LocationStack(), Slice(lower, Query(Obj1("id", "d")))) == []
  {
    var xs, doc := LocationStack(), Obj1("id", "d");
    forall j | 0 <= j < |xs|
      ensures !Contains(xs[j], doc)
    {
      MemberDiffers(xs[j], "id", "d");
    }
    QueryNoMatch(xs, doc, lower);
  }
}

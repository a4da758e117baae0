/**
 * A data frame of json series whose columns are assigned in place, `df[name] = ...`, and the
 * test that uses it to show that a key with dots, brackets or other punctuation is one literal
 * member name.
 */
module JsonFrame {
  import opened Wrappers
  import opened SeriesJson

  /** A data frame: named columns in display order, all of the same number of rows. */
  class DataFrame {
    var names: seq<string>
    var columns: map<string, Series>
    const rowCount: nat

    ghost predicate Valid()
      reads this
    {
      && (forall n :: n in columns <==> n in names)
      && (forall n | n in columns :: |columns[n]| == rowCount)
    }

    constructor (rowCount: nat)
      ensures Valid()
      ensures this.rowCount == rowCount && names == [] && columns == map[]
    {
      this.rowCount := rowCount;
      names := [];
      columns := map[];
    }

    /** The series in column `name`. */
    function Column(name: string): (s: Series)
      reads this
      requires Valid() && name in columns
      ensures |s| == rowCount
    {
      columns[name]
    }

    /**
     * `df[name] = series`: a new name is appended after the existing columns; an existing
     * name keeps its place and gets the new values.
     */
    method SetSeries(name: string, values: Series)
      requires Valid() && |values| == rowCount
      modifies this
      ensures Valid()
      ensures columns == old(columns)[name := values]
      ensures names == if name in old(columns) then old(names) else old(names) + [name]
    {
      if name !in columns {
        names := names + [name];
      }
      columns := columns[name := values];
    }

    /** `df[name] = value`: the json literal `value` in every row. */
    method SetValue(name: string, value: Json)
      requires Valid()
      modifies this
      ensures Valid()
      ensures columns == old(columns)[name := seq(rowCount, _ => Some(value))]
      ensures names == if name in old(columns) then old(names) else old(names) + [name]
    {
      SetSeries(name, seq(rowCount, _ => Some(value)));
    }
  }

  /** The `data` object of the special-characters test. */
  function SpecialCharacterData(): Json
  {
    JObject(map[
      "test.test" := JStr("a"),
      "test" := JObject(map["test" := JStr("b")]),
      "123test" := JStr("c"),
      "[{}@!{R#(!@(!" := JStr("d")])
  }

  /** Each key of the special-characters test selects its own member of the `data` object. */
  lemma SpecialCharacterLookups()
    ensures SeriesGetItem([Some(SpecialCharacterData())], AtKey("test.test")) == [Some(JStr("a"))]
    ensures SeriesGetItem(SeriesGetItem([Some(SpecialCharacterData())], AtKey("test")), AtKey("test"))
            == [Some(JStr("b"))]
    ensures SeriesGetItem([Some(SpecialCharacterData())], AtKey("123test")) == [Some(JStr("c"))]
    ensures SeriesGetItem([Some(SpecialCharacterData())], AtKey("[{}@!{R#(!@(!")) == [Some(JStr("d"))]
  {
  }

  /** The names of the six columns of the special-characters test are pairwise different. */
  lemma SelectionNamesDiffer()
    ensures forall n | n in ["select_a", "select_b", "select_c", "select_d"] :: n != "row" && n != "data"
    ensures "select_a" != "select_b" && "select_a" != "select_c" && "select_a" != "select_d"
    ensures "select_b" != "select_c" && "select_b" != "select_d" && "select_c" != "select_d"
  {
    assert "select_a"[7] == 'a' && "select_b"[7] == 'b' && "select_c"[7] == 'c' && "select_d"[7] == 'd';
  }

  /** The four selected columns of the special-characters test, assigned in this order. */
  method AddSelections(df: DataFrame, a: Series, b: Series, c: Series, d: Series)
    requires df.Valid() && df.names == ["row", "data"]
    requires |a| == |b| == |c| == |d| == df.rowCount
    modifies df
    ensures df.Valid()
    ensures df.names == ["row", "data", "select_a", "select_b", "select_c", "select_d"]
    ensures df.columns == old(df.columns)["select_a" := a]["select_b" := b]["select_c" := c]["select_d" := d]
    ensures df.columns["row"] == old(df.columns["row"]) && df.columns["data"] == old(df.columns["data"])
    ensures df.columns["select_a"] == a && df.columns["select_b"] == b
    ensures df.columns["select_c"] == c && df.columns["select_d"] == d
  {
    SelectionNamesDiffer();
    assert "select_a" !in df.names;
    df.SetSeries("select_a", a);
    assert df.names == ["row", "data", "select_a"] && "select_b" !in df.names;
    df.SetSeries("select_b", b);
    assert df.names == ["row", "data", "select_a", "select_b"] && "select_c" !in df.names;
    df.SetSeries("select_c", c);
    assert df.names == ["row", "data", "select_a", "select_b", "select_c"] && "select_d" !in df.names;
    df.SetSeries("select_d", d);
  }

  /**
   * The special-characters test: a one-row frame gets the `data` object and four columns
   * selected from it by key, `select_b` by chaining two lookups. Each key is read as one
   * literal member name, so `test.test` selects "a", not the nested "b". The frame ends with
   * its six columns in the order they were assigned.
   */
  method SpecialCharacterKeys() returns (df: DataFrame)
    ensures fresh(df) && df.Valid() && df.rowCount == 1
    ensures df.names == ["row", "data", "select_a", "select_b", "select_c", "select_d"]
    ensures df.columns["row"] == [Some(JNum(0))]
    ensures df.columns["data"] == [Some(SpecialCharacterData())]
    ensures df.columns["select_a"] == [Some(JStr("a"))] && df.columns["select_b"] == [Some(JStr("b"))]
    ensures df.columns["select_c"] == [Some(JStr("c"))] && df.columns["select_d"] == [Some(JStr("d"))]
  {
    df := new DataFrame(1);
    df.SetSeries("row", [Some(JNum(0))]);
    df.SetValue("data", SpecialCharacterData());
    var data := df.Column("data");
    assert data == [Some(SpecialCharacterData())];
    SpecialCharacterLookups();
    var a := SeriesGetItem(data, AtKey("test.test"));
    var b := SeriesGetItem(SeriesGetItem(data, AtKey("test")), AtKey("test"));
    var c := SeriesGetItem(data, AtKey("123test"));
    var d := SeriesGetItem(data, AtKey("[{}@!{R#(!@(!"));
    assert df.names == ["row", "data"];
    AddSelections(df, a, b, c, d);
  }
}

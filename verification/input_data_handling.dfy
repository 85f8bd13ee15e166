/** `_InputDataHandler` of fleur/_utils/input_data_handling.py: normalises
    the `x`/`y` arguments into two Series, their names, a dataframe and a
    `source` tag. */
module FleurInputData {
  import opened Errors
  import opened PyData
  import opened DTypes

  /** The dictionary `get_info` returns. */
  datatype Info = Info(x: Series, y: Series, xName: string, yName: string, dataframe: Frame, source: string)

  /** What the constructor stores, or the exception it raises. */
  function Dispatch(x: Arg, y: Arg, data: Option<Frame>): (r: Result<Info>)
    ensures r.Err? <==>
      (BothStrings(x, y) && (data.None? || x.s !in data.value.columns || y.s !in data.value.columns)) ||
      (!BothStrings(x, y) && !BothSeries(x, y) && !BothArrays(x, y))
    ensures r.Err? ==> r.error == (if BothStrings(x, y) then ValueError else TypeError)
    ensures r.Ok? ==> r.value.xName in r.value.dataframe.columns && r.value.yName in r.value.dataframe.columns
  {
    if x.Str? && y.Str? then
      if data.None? then Err(ValueError)
      else if x.s !in data.value.columns || y.s !in data.value.columns then Err(ValueError)
      else
        var df := data.value;
        Ok(Info(Column(df, x.s), Column(df, y.s), x.s, y.s, df, "dataframe"))
    else if x.SeriesArg? && y.SeriesArg? then
      var xName := NameOr(x.series.name, "x");
      var yName := NameOr(y.series.name, "y");
      Ok(Info(x.series, y.series, xName, yName, FromDict(xName, x.series, yName, y.series), "series"))
    else if IsArrayLike(x) && IsArrayLike(y) then
      var xs := NewSeries("x", x);
      var ys := NewSeries("y", y);
      Ok(Info(xs, ys, "x", "y", FromDict("x", xs, "y", ys), "array"))
    else
      Err(TypeError)
  }

  /** Two column names keep their names, take the columns from `data` and
      tag the source "dataframe". */
  lemma ColumnNames(x: string, y: string, df: Frame)
    requires x in df.columns && y in df.columns
    ensures var r := Dispatch(Str(x), Str(y), Some(df));
      r.Ok? && r.value.xName == x && r.value.yName == y && r.value.source == "dataframe" &&
      r.value.dataframe == df && r.value.x.values == df.columns[x].values &&
      r.value.y.values == df.columns[y].values
  {
  }

  /** Two Series keep their own names, falling back to "x" and "y" when a
      name is falsy; the source is "series". */
  lemma SeriesNames(x: Series, y: Series)
    ensures var r := Dispatch(SeriesArg(x), SeriesArg(y), None);
      r.Ok? && r.value.source == "series" && r.value.x == x && r.value.y == y &&
      (x.name.Some? && x.name.value != "" ==> r.value.xName == x.name.value) &&
      (x.name.None? || x.name.value == "" ==> r.value.xName == "x") &&
      (y.name.Some? && y.name.value != "" ==> r.value.yName == y.name.value) &&
      (y.name.None? || y.name.value == "" ==> r.value.yName == "y")
  {
  }

  /** Two Series with the same name leave a dataframe of one column, `y`'s. */
  lemma SameNameSeries(x: Series, y: Series, name: string)
    requires x.name == Some(name) && y.name == Some(name) && name != ""
    ensures var r := Dispatch(SeriesArg(x), SeriesArg(y), None);
      r.Ok? && r.value.dataframe.columns.Keys == {name} &&
      r.value.dataframe.columns[name].values == y.values
  {
  }

  /** Two array-likes become Series named "x" and "y"; the source is "array". */
  lemma ArrayNames(x: Arg, y: Arg, data: Option<Frame>)
    requires BothArrays(x, y)
    ensures var r := Dispatch(x, y, data);
      r.Ok? && r.value.xName == "x" && r.value.yName == "y" && r.value.source == "array" &&
      r.value.x.values == x.values && r.value.y.values == y.values &&
      r.value.dataframe.columns.Keys == {"x", "y"}
  {
  }

  /** A list of lists is array-like too: `x=[[1, 2], [3, 4]]` with
      `y=[5, 6]` and no data reaches the array branch and keeps its rows. */
  lemma NestedListIsArrayLike()
    ensures var x := ArrayArg(PyList, [Items([Num(1.0), Num(2.0)]), Items([Num(3.0), Num(4.0)])], Object);
      var y := ArrayArg(PyList, [Num(5.0), Num(6.0)], Int64);
      var r := Dispatch(x, y, None);
      r.Ok? && r.value.source == "array" && r.value.x.values == x.values && r.value.x.dtype == Object
  {
  }

  /** The object `_InputDataHandler(x, y, data)` builds. */
  class InputDataHandler {
    var x: Series
    var y: Series
    var xName: string
    var yName: string
    var dataframe: Frame
    var source: string

    constructor (x: Series, y: Series, xName: string, yName: string, dataframe: Frame, source: string)
      ensures this.x == x && this.y == y && this.xName == xName && this.yName == yName
      ensures this.dataframe == dataframe && this.source == source
    {
      this.x, this.y := x, y;
      this.xName, this.yName := xName, yName;
      this.dataframe, this.source := dataframe, source;
    }

    /** `get_info()`: the six stored fields, unchanged. */
    function GetInfo(): (info: Info)
      reads this
      ensures info.x == x && info.y == y && info.xName == xName && info.yName == yName
      ensures info.dataframe == dataframe && info.source == source
    {
      Info(x, y, xName, yName, dataframe, source)
    }

    /** `_InputDataHandler(x, y, data)`: tries column names, then Series, then
        array-likes, and raises when none fits. */
    static method New(x: Arg, y: Arg, data: Option<Frame>) returns (r: Result<InputDataHandler>)
      ensures r.Err? <==> Dispatch(x, y, data).Err?
      ensures r.Err? ==> r.error == Dispatch(x, y, data).error
      ensures r.Ok? ==> fresh(r.value) && r.value.GetInfo() == Dispatch(x, y, data).value
    {
      if x.Str? && y.Str? {
        if data.None? {
          return Err(ValueError);
        }
        var df := data.value;
        if x.s !in df.columns || y.s !in df.columns {
          return Err(ValueError);
        }
        var h := new InputDataHandler(Column(df, x.s), Column(df, y.s), x.s, y.s, df, "dataframe");
        return Ok(h);
      } else if x.SeriesArg? && y.SeriesArg? {
        var xName := NameOr(x.series.name, "x");
        var yName := NameOr(y.series.name, "y");
        var h := new InputDataHandler(x.series, y.series, xName, yName,
                                      FromDict(xName, x.series, yName, y.series), "series");
        return Ok(h);
      } else if IsArrayLike(x) && IsArrayLike(y) {
        var xs := NewSeries("x", x);
        var ys := NewSeries("y", y);
        var h := new InputDataHandler(xs, ys, "x", "y", FromDict("x", xs, "y", ys), "array");
        return Ok(h);
      } else {
        return Err(TypeError);
      }
    }
  }
}

/** `InputDataHandler` of inferplot/data_input.py: the same dispatch as
    fleur's handler, keeping the native `data` instead of building a
    dataframe, and with no dataframe in `get_info`. */
module InferplotInputData {
  import opened Errors
  import opened PyData
  import Fleur = FleurInputData

  /** The dictionary `get_info` returns: five keys, no dataframe. */
  datatype Info = Info(x: Series, y: Series, xName: string, yName: string, source: string)

  /** What the constructor stores (`data` first), or the exception it raises. */
  function Dispatch(x: Arg, y: Arg, data: Option<Frame>): (r: Result<(Option<Frame>, Info)>)
    ensures r.Err? <==>
      (BothStrings(x, y) && (data.None? || x.s !in data.value.columns || y.s !in data.value.columns)) ||
      (!BothStrings(x, y) && !BothSeries(x, y) && !BothArrays(x, y))
    ensures r.Err? ==> r.error == (if BothStrings(x, y) then ValueError else TypeError)
    ensures r.Ok? ==> (r.value.0.Some? <==> r.value.1.source == "dataframe")
    ensures r.Ok? && BothStrings(x, y) ==> r.value.0 == data
  {
    if x.Str? && y.Str? then
      if data.None? then Err(ValueError)
      else if x.s !in data.value.columns || y.s !in data.value.columns then Err(ValueError)
      else
        var df := data.value;
        Ok((data, Info(Column(df, x.s), Column(df, y.s), x.s, y.s, "dataframe")))
    else if x.SeriesArg? && y.SeriesArg? then
      var xs := Series(Some("x"), x.series.dtype, x.series.values);
      var ys := Series(Some("y"), y.series.dtype, y.series.values);
      Ok((None, Info(xs, ys, NameOr(x.series.name, "x"), NameOr(y.series.name, "y"), "series")))
    else if IsArrayLike(x) && IsArrayLike(y) then
      Ok((None, Info(NewSeries("x", x), NewSeries("y", y), "x", "y", "array")))
    else
      Err(TypeError)
  }

  /** Both handlers accept the same arguments, raise the same exceptions, and
      agree on names, values and source; only the stored data differs. */
  lemma AgreesWithFleur(x: Arg, y: Arg, data: Option<Frame>)
    ensures Dispatch(x, y, data).Err? <==> Fleur.Dispatch(x, y, data).Err?
    ensures Dispatch(x, y, data).Err? ==> Dispatch(x, y, data).error == Fleur.Dispatch(x, y, data).error
    ensures Dispatch(x, y, data).Ok? ==>
      var mine := Dispatch(x, y, data).value.1;
      var theirs := Fleur.Dispatch(x, y, data).value;
      mine.xName == theirs.xName && mine.yName == theirs.yName && mine.source == theirs.source &&
      mine.x.values == theirs.x.values && mine.y.values == theirs.y.values
  {
  }

  /** Outside the column-name case the handler keeps no data and names the
      stored Series "x" and "y", whatever their own names. */
  lemma NoDataOutsideColumns(x: Arg, y: Arg, data: Option<Frame>)
    requires Dispatch(x, y, data).Ok? && !BothStrings(x, y)
    ensures Dispatch(x, y, data).value.0 == None
    ensures Dispatch(x, y, data).value.1.x.name == Some("x")
    ensures Dispatch(x, y, data).value.1.y.name == Some("y")
  {
  }

  /** The object `InputDataHandler(x, y, data)` builds. */
  class InputDataHandler {
    var data: Option<Frame>
    var x: Series
    var y: Series
    var xName: string
    var yName: string
    var source: string

    constructor (data: Option<Frame>, x: Series, y: Series, xName: string, yName: string, source: string)
      ensures this.data == data && this.x == x && this.y == y
      ensures this.xName == xName && this.yName == yName && this.source == source
    {
      this.data := data;
      this.x, this.y := x, y;
      this.xName, this.yName := xName, yName;
      this.source := source;
    }

    /** `get_info()`: five stored fields, unchanged; `data` is not among them. */
    function GetInfo(): (info: Info)
      reads this
      ensures info.x == x && info.y == y && info.xName == xName && info.yName == yName
      ensures info.source == source
    {
      Info(x, y, xName, yName, source)
    }

    /** `InputDataHandler(x, y, data)`. */
    static method New(x: Arg, y: Arg, data: Option<Frame>) returns (r: Result<InputDataHandler>)
      ensures r.Err? <==> Dispatch(x, y, data).Err?
      ensures r.Err? ==> r.error == Dispatch(x, y, data).error
      ensures r.Ok? ==> fresh(r.value) && r.value.data == Dispatch(x, y, data).value.0 &&
                        r.value.GetInfo() == Dispatch(x, y, data).value.1
    {
      if x.Str? && y.Str? {
        if data.None? {
          return Err(ValueError);
        }
        var df := data.value;
        if x.s !in df.columns || y.s !in df.columns {
          return Err(ValueError);
        }
        var h := new InputDataHandler(data, Column(df, x.s), Column(df, y.s), x.s, y.s, "dataframe");
        return Ok(h);
      } else if x.SeriesArg? && y.SeriesArg? {
        var xs := Series(Some("x"), x.series.dtype, x.series.values);
        var ys := Series(Some("y"), y.series.dtype, y.series.values);
        var h := new InputDataHandler(None, xs, ys, NameOr(x.series.name, "x"), NameOr(y.series.name, "y"), "series");
        return Ok(h);
      } else if IsArrayLike(x) && IsArrayLike(y) {
        var h := new InputDataHandler(None, NewSeries("x", x), NewSeries("y", y), "x", "y", "array");
        return Ok(h);
      } else {
        return Err(TypeError);
      }
    }
  }
}

/** The Python values the input handlers tell apart: column names, Series,
    array-likes and dataframes. */
module PyData {
  import opened Errors
  import opened DTypes

  /** One value of a column, or one item of an array-like: a scalar, or a
      non-scalar item (an inner list or tuple). */
  datatype Cell = Num(r: real) | Txt(s: string) | Missing | Items(cells: seq<Cell>)

  /** A Series: its (optional) name, dtype and values. */
  datatype Series = Series(name: Option<string>, dtype: DType, values: seq<Cell>)

  /** The array-likes `_is_array_like` accepts. */
  datatype ArrayKind = PyList | PyTuple | NumpyArray

  /** An `x` or `y` argument. */
  datatype Arg =
    | Str(s: string)
      /** anything narwhals' `is_into_series` accepts */
    | SeriesArg(series: Series)
      /** any list or tuple, whatever its items, or a one-dimensional numpy
          array; `dtype` is the one the pandas backend infers for the values
          (Object for inner lists and tuples) */
    | ArrayArg(kind: ArrayKind, values: seq<Cell>, dtype: DType)
      /** a dict, a number, None, ... */
    | OtherArg

  /** A dataframe: its columns by name. */
  datatype Frame = Frame(columns: map<string, Series>)

  /** `_is_array_like(obj)`: a list, a tuple or a numpy array. */
  predicate IsArrayLike(a: Arg) {
    a.ArrayArg?
  }

  /** `df[name]`: the column as a Series named `name`. */
  function Column(f: Frame, name: string): (s: Series)
    requires name in f.columns
    ensures s.name == Some(name) && s.values == f.columns[name].values
    ensures s.dtype == f.columns[name].dtype
  {
    f.columns[name].(name := Some(name))
  }

  /** `df.schema`. */
  function SchemaOf(f: Frame): (s: Schema)
    ensures s.Keys == f.columns.Keys
    ensures forall c :: c in s ==> s[c] == f.columns[c].dtype
  {
    map c | c in f.columns :: f.columns[c].dtype
  }

  /** `nw.from_dict({xName: x, yName: y})`: a later key replaces an equal earlier one. */
  function FromDict(xName: string, x: Series, yName: string, y: Series): (f: Frame)
    ensures f.columns.Keys == {xName, yName}
    ensures f.columns[yName].values == y.values
    ensures xName != yName ==> f.columns[xName].values == x.values
  {
    Frame(map[xName := x.(name := Some(xName))][yName := y.(name := Some(yName))])
  }

  /** `series.name or default`: None and the empty name are falsy. */
  function NameOr(name: Option<string>, default: string): (r: string)
    ensures name.Some? && name.value != "" ==> r == name.value
    ensures name.None? || name.value == "" ==> r == default
  {
    match name
    case Some(n) => if n != "" then n else default
    case None => default
  }

  /** `nw.new_series(name, values)` from an array-like. */
  function NewSeries(name: string, a: Arg): (s: Series)
    requires a.ArrayArg?
    ensures s.name == Some(name) && s.values == a.values && s.dtype == a.dtype
  {
    Series(Some(name), a.dtype, a.values)
  }

  /** Which of the three accepted shapes an argument pair has. */
  predicate BothStrings(x: Arg, y: Arg) { x.Str? && y.Str? }
  predicate BothSeries(x: Arg, y: Arg) { x.SeriesArg? && y.SeriesArg? }
  predicate BothArrays(x: Arg, y: Arg) { IsArrayLike(x) && IsArrayLike(y) }

  /** At most one shape applies, so the order the handlers try them in
      (strings, then Series, then array-likes) never decides between two. */
  lemma ShapesExclusive(x: Arg, y: Arg)
    ensures !(BothStrings(x, y) && BothSeries(x, y))
    ensures !(BothStrings(x, y) && BothArrays(x, y))
    ensures !(BothSeries(x, y) && BothArrays(x, y))
  {
  }
}

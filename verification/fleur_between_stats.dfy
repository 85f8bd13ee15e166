/** `BetweenStats` of fleur/betweenstats.py: an object built from the
    `x`/`y` arguments that picks and runs a between-group test, validates
    plot options and builds the tick labels and the summary. */
module FleurBetweenStats {
  import opened Errors
  import opened Text
  import opened PyData
  import opened BetweenTests
  import Input = FleurInputData
  import FleurInferTypes

  /** What the constructor works out before it runs the scipy test. */
  datatype Analysis = Analysis(info: Input.Info, catCol: string, numCol: string, groups: Groups, test: Test)

  /** The constructor's checks in order: the input shape, the column types,
      then the number of categories. `groupBy(df, col)` stands for the
      narwhals `group_by`/`unique`/`n_unique`/`len` results. */
  function Analyse(x: Arg, y: Arg, data: Option<Frame>, paired: bool, groupBy: (Frame, string) -> Groups): (r: Result<Analysis>)
    ensures r.Ok? ==> Input.Dispatch(x, y, data) == Ok(r.value.info)
    ensures r.Ok? ==>
      var schema := SchemaOf(r.value.info.dataframe);
      r.value.catCol in schema && FleurInferTypes.IsCategorical(schema[r.value.catCol]) &&
      r.value.numCol in schema && FleurInferTypes.IsNumerical(schema[r.value.numCol]) &&
      {r.value.catCol, r.value.numCol} == {r.value.info.xName, r.value.info.yName}
    ensures r.Ok? ==> (r.value.groups.nCat >= 2 &&
                       (r.value.test.OneWayAnova? <==> r.value.groups.nCat >= 3))
  {
    match Input.Dispatch(x, y, data)
    case Err(e) => Err(e)
    case Ok(info) =>
      match FleurInferTypes.InferTypes(info.xName, info.yName, SchemaOf(info.dataframe))
      case Err(e) => Err(e)
      case Ok(cols) =>
        var g := groupBy(info.dataframe, cols.0);
        match SelectTest(g.nCat, paired, g.nObs)
        case Err(e) => Err(e)
        case Ok(t) => Ok(Analysis(info, cols.0, cols.1, g, t))
  }

  /** Which exception the constructor raises: an input-shape error first,
      then `KeyError` from the type inference, then the category count. */
  lemma AnalyseErrors(x: Arg, y: Arg, data: Option<Frame>, paired: bool, groupBy: (Frame, string) -> Groups)
    ensures Input.Dispatch(x, y, data).Err? ==>
      Analyse(x, y, data, paired, groupBy) == Err(Input.Dispatch(x, y, data).error)
    ensures Input.Dispatch(x, y, data).Ok? ==>
      var info := Input.Dispatch(x, y, data).value;
      FleurInferTypes.InferTypes(info.xName, info.yName, SchemaOf(info.dataframe)).Err? ==>
        Analyse(x, y, data, paired, groupBy) == Err(KeyError)
    ensures Analyse(x, y, data, paired, groupBy).Err? ==>
      Analyse(x, y, data, paired, groupBy).error in {ValueError, TypeError, KeyError, NotImplementedError}
    ensures Analyse(x, y, data, paired, groupBy).Ok? ==>
      var a := Analyse(x, y, data, paired, groupBy).value;
      SelectTest(a.groups.nCat, paired, a.groups.nObs) == Ok(a.test)
  {
    var d := Input.Dispatch(x, y, data);
    if d.Err? {
      InputStageError(x, y, data, paired, groupBy);
    } else if FleurInferTypes.InferTypes(d.value.xName, d.value.yName, SchemaOf(d.value.dataframe)).Err? {
      TypeStageError(x, y, data, paired, groupBy);
    } else {
      SelectionStage(x, y, data, paired, groupBy);
    }
  }

  /** The input stage's exception is the constructor's. */
  lemma InputStageError(x: Arg, y: Arg, data: Option<Frame>, paired: bool, groupBy: (Frame, string) -> Groups)
    requires Input.Dispatch(x, y, data).Err?
    ensures Analyse(x, y, data, paired, groupBy) == Err(Input.Dispatch(x, y, data).error)
    ensures Input.Dispatch(x, y, data).error in {ValueError, TypeError}
  {
  }

  /** Columns that cannot be typed raise `KeyError`. */
  lemma TypeStageError(x: Arg, y: Arg, data: Option<Frame>, paired: bool, groupBy: (Frame, string) -> Groups)
    requires Input.Dispatch(x, y, data).Ok?
    requires var info := Input.Dispatch(x, y, data).value;
      FleurInferTypes.InferTypes(info.xName, info.yName, SchemaOf(info.dataframe)).Err?
    ensures Analyse(x, y, data, paired, groupBy) == Err(KeyError)
  {
  }

  /** Past the first two stages, the test selection decides. */
  lemma SelectionStage(x: Arg, y: Arg, data: Option<Frame>, paired: bool, groupBy: (Frame, string) -> Groups)
    requires Input.Dispatch(x, y, data).Ok?
    requires var info := Input.Dispatch(x, y, data).value;
      FleurInferTypes.InferTypes(info.xName, info.yName, SchemaOf(info.dataframe)).Ok?
    ensures Analyse(x, y, data, paired, groupBy).Err? ==>
      Analyse(x, y, data, paired, groupBy).error in {ValueError, NotImplementedError}
    ensures Analyse(x, y, data, paired, groupBy).Ok? ==>
      var a := Analyse(x, y, data, paired, groupBy).value;
      SelectTest(a.groups.nCat, paired, a.groups.nObs) == Ok(a.test)
  {
    var info := Input.Dispatch(x, y, data).value;
    var cols := FleurInferTypes.InferTypes(info.xName, info.yName, SchemaOf(info.dataframe)).value;
    var g := groupBy(info.dataframe, cols.0);
    match SelectTest(g.nCat, paired, g.nObs)
    case Err(e) =>
      assert Analyse(x, y, data, paired, groupBy) == Err(e);
    case Ok(t) =>
      assert Analyse(x, y, data, paired, groupBy) == Ok(Analysis(info, cols.0, cols.1, g, t));
  }

  /** The orientation a plot puts its ticks on. */
  datatype TickAxis = XAxis | YAxis

  /** `set_xticks(ticks, labels=labels)` or `set_yticks(...)`. */
  datatype TickSpec = TickSpec(axis: TickAxis, ticks: seq<int>, labels: seq<string>)

  class BetweenStats {
    var dataInfo: Input.Info
    var isFitted: bool
    var isPaired: bool
    var sampleSizes: seq<nat>
    var catLabels: seq<string>
    var nCat: nat
    var nObs: nat
    var isAnova: bool
    var name: string
    var statistic: real
    var pvalue: real
    /** Unset attributes are `None`: a t-test sets `dof`, ANOVA the other two. */
    var dof: Option<int>
    var dofBetween: Option<int>
    var dofWithin: Option<int>
    var mainStat: string
    var expression: string

    /** The attributes agree with the test that was chosen. */
    predicate Valid()
      reads this
    {
      nCat >= 2 && !isFitted &&
      (isAnova <==> nCat >= 3) &&
      (isAnova ==> !isPaired && name == "One-way ANOVA" && dof.None? &&
                   dofBetween == Some(nCat - 1) && dofWithin == Some(nObs - nCat)) &&
      (!isAnova ==> name == (if isPaired then "Paired t-test" else "T-test") &&
                    dof.Some? && dofBetween.None? && dofWithin.None?)
    }

    /** The attributes `__init__` sets once the test `t` is chosen and has
        returned `res`. */
    constructor (info: Input.Info, paired: bool, g: Groups, t: Test, res: ScipyResult, fixed: (real, nat) -> string)
      requires SelectTest(g.nCat, paired, g.nObs) == Ok(t)
      ensures Valid()
      ensures dataInfo == info && isPaired == paired
      ensures sampleSizes == g.sampleSizes && catLabels == g.labels && nCat == g.nCat && nObs == g.nObs
      ensures name == TestName(t) && statistic == res.statistic && pvalue == res.pvalue
      ensures t.TTest? ==> dof == Some(Truncate(res.df))
      ensures mainStat == MainStat(t, res, fixed)
      ensures expression == Expression(mainStat, res.pvalue, nObs, fixed)
    {
      SelectTestCases(g.nCat, paired, g.nObs);
      dataInfo := info;
      isFitted := false;
      isPaired := paired;
      sampleSizes, catLabels := g.sampleSizes, g.labels;
      nCat, nObs := g.nCat, g.nObs;
      isAnova := t.OneWayAnova?;
      name := TestName(t);
      statistic, pvalue := res.statistic, res.pvalue;
      match t {
        case TTest(_) =>
          dof, dofBetween, dofWithin := Some(Truncate(res.df)), None, None;
        case OneWayAnova(b, w) =>
          dof, dofBetween, dofWithin := None, Some(b), Some(w);
      }
      mainStat := MainStat(t, res, fixed);
      expression := Expression(MainStat(t, res, fixed), res.pvalue, g.nObs, fixed);
    }

    /** `BetweenStats(x, y, data, paired)`. `scipy(test, df, cat, num)` is the
        chosen scipy.stats test on the groups of `num` by `cat`, and
        `fixed(v, d)` formats `v` with `d` decimals. */
    static method New(x: Arg, y: Arg, data: Option<Frame>, paired: bool,
                      groupBy: (Frame, string) -> Groups,
                      scipy: (ScipyTest, Frame, string, string) -> ScipyResult,
                      fixed: (real, nat) -> string)
      returns (r: Result<BetweenStats>)
      ensures r.Err? <==> Analyse(x, y, data, paired, groupBy).Err?
      ensures r.Err? ==> r.error == Analyse(x, y, data, paired, groupBy).error
      ensures r.Ok? ==> fresh(r.value) && r.value.Valid()
      ensures r.Ok? ==>
        var a := Analyse(x, y, data, paired, groupBy).value;
        var res := scipy(ScipyCall(a.test), a.info.dataframe, a.catCol, a.numCol);
        var s := r.value;
        s.dataInfo == a.info && s.nCat == a.groups.nCat && s.nObs == a.groups.nObs &&
        s.sampleSizes == a.groups.sampleSizes && s.catLabels == a.groups.labels &&
        s.name == TestName(a.test) && s.statistic == res.statistic && s.pvalue == res.pvalue &&
        (a.test.TTest? ==> s.dof == Some(Truncate(res.df))) &&
        s.mainStat == MainStat(a.test, res, fixed) &&
        s.expression == Expression(s.mainStat, res.pvalue, s.nObs, fixed)
    {
      var handler := Input.InputDataHandler.New(x, y, data);
      if handler.Err? {
        return Err(handler.error);
      }
      var info := handler.value.GetInfo();
      assert Input.Dispatch(x, y, data) == Ok(info);
      var df := info.dataframe;
      var cols := FleurInferTypes.InferTypes(info.xName, info.yName, SchemaOf(df));
      if cols.Err? {
        return Err(cols.error);
      }
      var catCol, numCol := cols.value.0, cols.value.1;
      var g := groupBy(df, catCol);
      var test := SelectTest(g.nCat, paired, g.nObs);
      if test.Err? {
        return Err(test.error);
      }
      var t := test.value;
      assert Analyse(x, y, data, paired, groupBy) == Ok(Analysis(info, catCol, numCol, g, t));
      var res := scipy(ScipyCall(t), df, catCol, numCol);
      var s := new BetweenStats(info, paired, g, t, res, fixed);
      return Ok(s);
    }

    /** The checks and ticks of `plot(orientation=..., colors=...)`: a bad
        orientation, then too few colours, raise `ValueError`; otherwise the
        ticks 1..n go on the x axis for "vertical" and the y axis for
        "horizontal", labelled `"<label>\nn = <size>"`. */
    method Plot(orientation: string, colors: Option<seq<string>>) returns (r: Result<TickSpec>)
      ensures r.Err? <==> !ValidOrientation(orientation) || !EnoughColors(colors, nCat)
      ensures r.Err? ==> r.error == ValueError
      ensures r.Ok? ==> r.value.axis == (if orientation == "vertical" then XAxis else YAxis)
      ensures r.Ok? ==> |r.value.ticks| == |sampleSizes|
      ensures r.Ok? ==> forall k :: 0 <= k < |sampleSizes| ==> r.value.ticks[k] == k + 1
      ensures r.Ok? ==> r.value.labels == TickLabels(sampleSizes, catLabels)
    {
      if orientation != "vertical" && orientation != "horizontal" {
        return Err(ValueError);
      }
      if colors.Some? && |colors.value| < nCat {
        return Err(ValueError);
      }
      var ticks := Ticks(|sampleSizes|);
      var labels := TickLabels(sampleSizes, catLabels);
      if orientation == "vertical" {
        r := Ok(TickSpec(XAxis, ticks, labels));
      } else {
        r := Ok(TickSpec(YAxis, ticks, labels));
      }
    }

    /** The three lines `summary()` prints: a title, the test with the group
        count for ANOVA only, and the annotation without `$`, `{` and `}`. */
    function Summary(): (lines: seq<string>)
      reads this
      ensures |lines| == 3 && lines[0] == "Between stats comparison\n"
      ensures lines[1] == "Test: " + name + " " + (if isAnova then "with " + NatToString(nCat) + " groups" else "")
      ensures forall k :: 0 <= k < |lines[2]| ==> lines[2][k] !in {'$', '{', '}'} && lines[2][k] in expression
      ensures lines[2] == Clean(expression)
    {
      var info := if isAnova then "with " + NatToString(nCat) + " groups" else "";
      assert "Test: " + TestInfo(name, isAnova, nCat) == "Test: " + name + " " + info;
      SummaryLines(name, isAnova, nCat, expression)
    }
  }
}

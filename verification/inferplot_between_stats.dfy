/** `BetweenStats` of inferplot/betweenstats.py: `fit` is a classmethod, so
    every attribute it writes lives on the class and survives from one call
    to the next; `summary` refuses to run before a fit has completed. */
module InferplotBetweenStats {
  import opened Errors
  import opened Text
  import opened PyData
  import opened BetweenTests
  import InferplotInferTypes

  /** The class attributes `fit` writes. `None` is an attribute that was
      never set; `fitted` is `hasattr(cls, "_is_fitted")`. */
  datatype Attrs = Attrs(
    isAnova: Option<bool>, name: Option<string>,
    dof: Option<int>, dofBetween: Option<int>, dofWithin: Option<int>,
    statistic: Option<real>, pvalue: Option<real>, mainStat: Option<string>,
    isPaired: Option<bool>, expression: Option<string>,
    nCat: Option<nat>, nObs: Option<nat>, fitted: bool)

  /** The class before its first `fit`. */
  const Unfitted := Attrs(None, None, None, None, None, None, None, None, None, None, None, None, false)

  /** The arguments of `fit` that decide its outcome. */
  datatype FitArgs = FitArgs(x: string, y: string, data: Frame, orientation: string,
                             paired: bool, colors: Option<seq<string>>, plotViolin: bool)

  /** The category and value columns and the group facts. */
  datatype Plan = Plan(catCol: string, numCol: string, groups: Groups)

  /** The checks `fit` makes before the test branch: the orientation, the
      column types, then the colour count. */
  function Prepare(args: FitArgs, groupBy: (Frame, string) -> Groups): (r: Result<Plan>)
    ensures !ValidOrientation(args.orientation) ==> r == Err(ValueError)
    ensures r.Ok? ==> ValidOrientation(args.orientation) && EnoughColors(args.colors, r.value.groups.nCat)
    ensures r.Ok? ==> InferplotInferTypes.InferTypes(args.x, args.y, SchemaOf(args.data)) == Ok((r.value.catCol, r.value.numCol))
  {
    if !ValidOrientation(args.orientation) then Err(ValueError)
    else
      match InferplotInferTypes.InferTypes(args.x, args.y, SchemaOf(args.data))
      case Err(e) => Err(e)
      case Ok(cols) =>
        var g := groupBy(args.data, cols.0);
        if !EnoughColors(args.colors, g.nCat) then Err(ValueError)
        else Ok(Plan(cols.0, cols.1, g))
  }

  /** Every attribute a completed fit with test `t` writes, given its
      `main_stat` and annotation; a t-test leaves `dof_between`/`dof_within`
      as they were and ANOVA leaves `dof`. */
  function Record(a: Attrs, t: Test, g: Groups, res: ScipyResult, paired: bool, mainStat: string, expression: string): Attrs {
    Attrs(Some(t.OneWayAnova?), Some(TestName(t)),
          if t.TTest? then Some(Truncate(res.df)) else a.dof,
          if t.OneWayAnova? then Some(t.dofBetween) else a.dofBetween,
          if t.OneWayAnova? then Some(t.dofWithin) else a.dofWithin,
          Some(res.statistic), Some(res.pvalue), Some(mainStat),
          Some(paired), Some(expression), Some(g.nCat), Some(g.nObs), true)
  }

  /** The state after a completed fit: `Record` with the formatted strings. */
  function Completed(a: Attrs, t: Test, g: Groups, res: ScipyResult, paired: bool, fixed: (real, nat) -> string): Attrs {
    var ms := MainStat(t, res, fixed);
    Record(a, t, g, res, paired, ms, Expression(ms, res.pvalue, g.nObs, fixed))
  }

  /** `fit` as written: with `plot_violin=False` it reads the unbound
      `violin_artists`, and a paired fit on three or more categories sets
      `is_ANOVA` before it raises. Returns the outcome and the new class state. */
  function FitAsWritten(a: Attrs, args: FitArgs, groupBy: (Frame, string) -> Groups,
                        scipy: (ScipyTest, Frame, string, string) -> ScipyResult,
                        fixed: (real, nat) -> string): (r: (Outcome, Attrs))
    ensures r.0.Fail? && r.1 != a ==> r.0.error == NotImplementedError && r.1 == a.(isAnova := Some(true))
  {
    match Prepare(args, groupBy)
    case Err(e) => (Fail(e), a)
    case Ok(p) =>
      if !args.plotViolin then (Fail(UnboundLocalError), a)
      else if p.groups.nCat < 2 then (Fail(ValueError), a)
      else if p.groups.nCat >= 3 && args.paired then (Fail(NotImplementedError), a.(isAnova := Some(true)))
      else
        var t := SelectTest(p.groups.nCat, args.paired, p.groups.nObs).value;
        (Pass, Completed(a, t, p.groups, scipy(ScipyCall(t), args.data, p.catCol, p.numCol), args.paired, fixed))
  }

  /** The attributes of a fitted class agree with each other and with the
      test that was chosen. */
  predicate Valid(a: Attrs) {
    a.fitted ==>
      a.isAnova.Some? && a.name.Some? && a.statistic.Some? && a.pvalue.Some? &&
      a.mainStat.Some? && a.isPaired.Some? && a.expression.Some? && a.nCat.Some? && a.nObs.Some? &&
      a.nCat.value >= 2 && (a.isAnova.value <==> a.nCat.value >= 3) &&
      (a.isAnova.value ==> !a.isPaired.value && a.name.value == "One-way ANOVA" &&
                           a.dofBetween == Some(a.nCat.value - 1) &&
                           a.dofWithin == Some(a.nObs.value - a.nCat.value)) &&
      (!a.isAnova.value ==> a.name.value == (if a.isPaired.value then "Paired t-test" else "T-test") &&
                            a.dof.Some?)
  }

  /** `fit` as evidently intended: the violin flag only controls drawing, and
      nothing is written to the class unless the fit completes. */
  function FitCorrected(a: Attrs, args: FitArgs, groupBy: (Frame, string) -> Groups,
                        scipy: (ScipyTest, Frame, string, string) -> ScipyResult,
                        fixed: (real, nat) -> string): (r: (Outcome, Attrs))
    ensures r.0.Fail? ==> r.1 == a
    ensures r.0.Fail? ==> r.0.error in {ValueError, KeyError, NotImplementedError}
    ensures r.0.Pass? ==> r.1.fitted && Valid(r.1)
  {
    match Prepare(args, groupBy)
    case Err(e) => (Fail(e), a)
    case Ok(p) =>
      match SelectTest(p.groups.nCat, args.paired, p.groups.nObs)
      case Err(e) => (Fail(e), a)
      case Ok(t) =>
        var res := scipy(ScipyCall(t), args.data, p.catCol, p.numCol);
        CompletedValid(a, t, p.groups, res, args.paired, fixed);
        (Pass, Completed(a, t, p.groups, res, args.paired, fixed))
  }

  /** A completed fit leaves the class fitted and its attributes consistent,
      whatever the formatted strings are. */
  lemma CompletedValid(a: Attrs, t: Test, g: Groups, res: ScipyResult, paired: bool, fixed: (real, nat) -> string)
    requires SelectTest(g.nCat, paired, g.nObs) == Ok(t)
    ensures Completed(a, t, g, res, paired, fixed).fitted
    ensures Valid(Completed(a, t, g, res, paired, fixed))
  {
    var ms := MainStat(t, res, fixed);
    var expr := Expression(ms, res.pvalue, g.nObs, fixed);
    SelectTestCases(g.nCat, paired, g.nObs);
    assert Valid(Record(a, t, g, res, paired, ms, expr));
  }

  /** `summary()`: `RuntimeError` before any completed fit, otherwise the
      three lines built from the class attributes. */
  function SummaryOf(a: Attrs): (r: Result<seq<string>>)
    ensures !a.fitted <==> r == Err(RuntimeError)
    ensures a.fitted && Valid(a) ==> r.Ok? && |r.value| == 3
    ensures a.fitted && Valid(a) ==> r.value[0] == "Between stats comparison\n"
    ensures a.fitted && Valid(a) ==> r.value[1] == "Test: " + TestInfo(a.name.value, a.isAnova.value, a.nCat.value)
    ensures a.fitted && Valid(a) ==> r.value[2] == Clean(a.expression.value)
  {
    if !a.fitted then Err(RuntimeError)
    else if a.name.None? || a.isAnova.None? || a.nCat.None? || a.expression.None? then Err(AttributeError)
    else Ok(SummaryLines(a.name.value, a.isAnova.value, a.nCat.value, a.expression.value))
  }

  /** `fit` succeeds exactly when the orientation is valid, the columns are
      one categorical and one numerical, there are enough colours and the
      categories select a test; the first failing check names the exception. */
  lemma FitSucceedsIff(a: Attrs, args: FitArgs, groupBy: (Frame, string) -> Groups,
                       scipy: (ScipyTest, Frame, string, string) -> ScipyResult, fixed: (real, nat) -> string)
    ensures var r := FitCorrected(a, args, groupBy, scipy, fixed);
      var cols := InferplotInferTypes.InferTypes(args.x, args.y, SchemaOf(args.data));
      (!ValidOrientation(args.orientation) ==> r.0 == Fail(ValueError)) &&
      (ValidOrientation(args.orientation) && cols.Err? ==> r.0 == Fail(KeyError)) &&
      (ValidOrientation(args.orientation) && cols.Ok? ==>
        var g := groupBy(args.data, cols.value.0);
        (!EnoughColors(args.colors, g.nCat) ==> r.0 == Fail(ValueError)) &&
        (EnoughColors(args.colors, g.nCat) ==>
          (r.0.Pass? <==> SelectTest(g.nCat, args.paired, g.nObs).Ok?) &&
          (r.0.Fail? ==> r.0.error == SelectTest(g.nCat, args.paired, g.nObs).error)))
  {
  }

  /** A completed ANOVA fit keeps the `dof` of an earlier t-test fit, and a
      completed t-test fit keeps the earlier ANOVA degrees of freedom. */
  lemma DofPersists(a: Attrs, args: FitArgs, groupBy: (Frame, string) -> Groups,
                    scipy: (ScipyTest, Frame, string, string) -> ScipyResult, fixed: (real, nat) -> string)
    ensures var r := FitCorrected(a, args, groupBy, scipy, fixed);
      r.0.Pass? ==>
        (r.1.isAnova == Some(true) ==> r.1.dof == a.dof) &&
        (r.1.isAnova == Some(false) ==> r.1.dofBetween == a.dofBetween && r.1.dofWithin == a.dofWithin)
  {
  }

  /** Before any fit, and after any number of failed fits, `summary` raises
      `RuntimeError`. */
  lemma SummaryBeforeFit(a: Attrs, args: FitArgs, groupBy: (Frame, string) -> Groups,
                         scipy: (ScipyTest, Frame, string, string) -> ScipyResult, fixed: (real, nat) -> string)
    requires !a.fitted
    ensures SummaryOf(Unfitted) == Err(RuntimeError)
    ensures FitCorrected(a, args, groupBy, scipy, fixed).0.Fail? ==>
      SummaryOf(FitCorrected(a, args, groupBy, scipy, fixed).1) == Err(RuntimeError)
  {
  }

  /** Once fitted, the class stays fitted and consistent, whatever later
      fits do; `summary` then always succeeds. */
  lemma FitPreservesValid(a: Attrs, args: FitArgs, groupBy: (Frame, string) -> Groups,
                          scipy: (ScipyTest, Frame, string, string) -> ScipyResult, fixed: (real, nat) -> string)
    requires Valid(a)
    ensures var r := FitCorrected(a, args, groupBy, scipy, fixed).1;
      Valid(r) && (a.fitted ==> r.fitted) && (r.fitted ==> SummaryOf(r).Ok?)
  {
  }

  /** An invalid orientation fails before the data is looked at. */
  lemma OrientationFirst(a: Attrs, args: FitArgs, data: Frame, groupBy: (Frame, string) -> Groups,
                         scipy: (ScipyTest, Frame, string, string) -> ScipyResult, fixed: (real, nat) -> string)
    requires !ValidOrientation(args.orientation)
    ensures FitCorrected(a, args, groupBy, scipy, fixed) == (Fail(ValueError), a)
    ensures FitCorrected(a, args.(data := data), groupBy, scipy, fixed) == (Fail(ValueError), a)
  {
  }

  /** With `plot_violin=False`, every fit that passes the first checks fails
      with `UnboundLocalError` as written. */
  lemma ViolinOffFailsAsWritten(a: Attrs, args: FitArgs, groupBy: (Frame, string) -> Groups,
                                scipy: (ScipyTest, Frame, string, string) -> ScipyResult, fixed: (real, nat) -> string)
    requires Prepare(args, groupBy).Ok? && !args.plotViolin
    ensures FitAsWritten(a, args, groupBy, scipy, fixed) == (Fail(UnboundLocalError), a)
  {
  }

  /** After the correction the violin flag does not change the outcome. */
  lemma ViolinIrrelevant(a: Attrs, args: FitArgs, groupBy: (Frame, string) -> Groups,
                         scipy: (ScipyTest, Frame, string, string) -> ScipyResult, fixed: (real, nat) -> string)
    ensures FitCorrected(a, args, groupBy, scipy, fixed) ==
            FitCorrected(a, args.(plotViolin := !args.plotViolin), groupBy, scipy, fixed)
  {
    assert Prepare(args, groupBy) == Prepare(args.(plotViolin := !args.plotViolin), groupBy);
  }

  /** The two versions differ only on the violin flag and on the paired
      ANOVA request. */
  lemma CorrectedAgreesAsWritten(a: Attrs, args: FitArgs, groupBy: (Frame, string) -> Groups,
                                 scipy: (ScipyTest, Frame, string, string) -> ScipyResult, fixed: (real, nat) -> string)
    requires args.plotViolin
    requires Prepare(args, groupBy).Ok? ==> !(Prepare(args, groupBy).value.groups.nCat >= 3 && args.paired)
    ensures FitAsWritten(a, args, groupBy, scipy, fixed) == FitCorrected(a, args, groupBy, scipy, fixed)
  {
  }

  /** As written, a paired fit on three categories after a t-test fit leaves
      `is_ANOVA` set on a two-group t-test, and `summary` reports
      "T-test with 2 groups". */
  lemma StaleSummaryAsWritten(a: Attrs, args: FitArgs, groupBy: (Frame, string) -> Groups,
                              scipy: (ScipyTest, Frame, string, string) -> ScipyResult, fixed: (real, nat) -> string)
    requires Valid(a) && a.fitted && a.isAnova == Some(false) && a.isPaired == Some(false) && a.nCat == Some(2)
    requires Prepare(args, groupBy).Ok? && args.plotViolin && args.paired
    requires Prepare(args, groupBy).value.groups.nCat == 3
    ensures var r := FitAsWritten(a, args, groupBy, scipy, fixed);
      r.0 == Fail(NotImplementedError) && !Valid(r.1) &&
      SummaryOf(r.1).Ok? && SummaryOf(r.1).value[1] == "Test: T-test with 2 groups"
  {
    var b := a.(isAnova := Some(true));
    assert FitAsWritten(a, args, groupBy, scipy, fixed) == (Fail(NotImplementedError), b);
    StaleTestLine(b);
  }

  /** The test line of a two-group t-test whose `is_ANOVA` says otherwise. */
  lemma StaleTestLine(b: Attrs)
    requires b.fitted && b.isAnova == Some(true) && b.name == Some("T-test") && b.nCat == Some(2)
    requires b.expression.Some?
    ensures SummaryOf(b).Ok? && SummaryOf(b).value[1] == "Test: T-test with 2 groups"
  {
    assert NatToString(2) == "2";
    assert TestInfo("T-test", true, 2) == "T-test with 2 groups";
  }

  /** After the correction a failed fit leaves `summary` as it was. */
  lemma FailedFitKeepsSummary(a: Attrs, args: FitArgs, groupBy: (Frame, string) -> Groups,
                              scipy: (ScipyTest, Frame, string, string) -> ScipyResult, fixed: (real, nat) -> string)
    requires FitCorrected(a, args, groupBy, scipy, fixed).0.Fail?
    ensures SummaryOf(FitCorrected(a, args, groupBy, scipy, fixed).1) == SummaryOf(a)
  {
  }

  /** The class object: one instance stands for the class and its attributes. */
  class BetweenStats {
    var isAnova: Option<bool>
    var name: Option<string>
    var dof: Option<int>
    var dofBetween: Option<int>
    var dofWithin: Option<int>
    var statistic: Option<real>
    var pvalue: Option<real>
    var mainStat: Option<string>
    var isPaired: Option<bool>
    var expression: Option<string>
    var nCat: Option<nat>
    var nObs: Option<nat>
    var fitted: bool

    function Attributes(): Attrs
      reads this
    {
      Attrs(isAnova, name, dof, dofBetween, dofWithin, statistic, pvalue, mainStat,
            isPaired, expression, nCat, nObs, fitted)
    }

    /** The class as defined, with none of the attributes `fit` sets. */
    constructor ()
      ensures Attributes() == Unfitted
    {
      isAnova, name := None, None;
      dof, dofBetween, dofWithin := None, None, None;
      statistic, pvalue, mainStat := None, None, None;
      isPaired, expression := None, None;
      nCat, nObs := None, None;
      fitted := false;
    }

    /** `BetweenStats.fit(...)`, corrected as in `FitCorrected`. */
    method Fit(args: FitArgs, groupBy: (Frame, string) -> Groups,
               scipy: (ScipyTest, Frame, string, string) -> ScipyResult, fixed: (real, nat) -> string)
      returns (outcome: Outcome)
      modifies this
      ensures (outcome, Attributes()) == FitCorrected(old(Attributes()), args, groupBy, scipy, fixed)
    {
      if args.orientation != "vertical" && args.orientation != "horizontal" {
        return Fail(ValueError);
      }
      var cols := InferplotInferTypes.InferTypes(args.x, args.y, SchemaOf(args.data));
      if cols.Err? {
        return Fail(cols.error);
      }
      var catCol, numCol := cols.value.0, cols.value.1;
      var g := groupBy(args.data, catCol);
      if args.colors.Some? && |args.colors.value| < g.nCat {
        return Fail(ValueError);
      }
      assert Prepare(args, groupBy) == Ok(Plan(catCol, numCol, g));
      var test := SelectTest(g.nCat, args.paired, g.nObs);
      if test.Err? {
        return Fail(test.error);
      }
      var t := test.value;
      var res := scipy(ScipyCall(t), args.data, catCol, numCol);
      var ms := MainStat(t, res, fixed);
      Commit(t, g, res, args.paired, ms, Expression(ms, res.pvalue, g.nObs, fixed));
      return Pass;
    }

    /** The attribute writes of a fit that has chosen test `t`. */
    method Commit(t: Test, g: Groups, res: ScipyResult, paired: bool, ms: string, expr: string)
      modifies this
      ensures Attributes() == Record(old(Attributes()), t, g, res, paired, ms, expr)
    {
      isAnova, name := Some(t.OneWayAnova?), Some(TestName(t));
      SetDof(t, res);
      SetOutcome(g, res, paired, ms, expr);
    }

    /** The statistics, the annotation, the group counts and `_is_fitted`. */
    method SetOutcome(g: Groups, res: ScipyResult, paired: bool, ms: string, expr: string)
      modifies this`statistic, this`pvalue, this`mainStat, this`isPaired, this`expression
      modifies this`nCat, this`nObs, this`fitted
      ensures statistic == Some(res.statistic) && pvalue == Some(res.pvalue) && mainStat == Some(ms)
      ensures isPaired == Some(paired) && expression == Some(expr)
      ensures nCat == Some(g.nCat) && nObs == Some(g.nObs) && fitted
    {
      statistic, pvalue, mainStat := Some(res.statistic), Some(res.pvalue), Some(ms);
      isPaired, expression := Some(paired), Some(expr);
      nCat, nObs := Some(g.nCat), Some(g.nObs);
      fitted := true;
    }

    /** `cls.dof` for a t-test, `cls.dof_between`/`cls.dof_within` for ANOVA. */
    method SetDof(t: Test, res: ScipyResult)
      modifies this`dof, this`dofBetween, this`dofWithin
      ensures dof == if t.TTest? then Some(Truncate(res.df)) else old(dof)
      ensures dofBetween == if t.OneWayAnova? then Some(t.dofBetween) else old(dofBetween)
      ensures dofWithin == if t.OneWayAnova? then Some(t.dofWithin) else old(dofWithin)
    {
      if t.TTest? {
        dof := Some(Truncate(res.df));
      } else {
        dofBetween, dofWithin := Some(t.dofBetween), Some(t.dofWithin);
      }
    }

    /** `BetweenStats.summary()` on the current class attributes. */
    function Summary(): (r: Result<seq<string>>)
      reads this
      ensures !fitted ==> r == Err(RuntimeError)
      ensures fitted && Valid(Attributes()) ==> r.Ok? && |r.value| == 3
      ensures r == SummaryOf(Attributes())
    {
      SummaryOf(Attributes())
    }
  }
}

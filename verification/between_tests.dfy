/** The choice of statistical test shared by both `BetweenStats` versions,
    and the annotation and summary text built from its results. The scipy
    tests themselves are opaque: a caller supplies their results. */
module BetweenTests {
  import opened Errors
  import opened Text

  /** The test chosen for the groups. */
  datatype Test = TTest(paired: bool) | OneWayAnova(dofBetween: int, dofWithin: int)

  /** The scipy.stats function the test calls. */
  datatype ScipyTest = TTestRel | TTestInd | FOneway

  /** What a scipy test returns: statistic, p-value and (for t-tests) `df`. */
  datatype ScipyResult = ScipyResult(statistic: real, pvalue: real, df: real)

  /** Facts about the data that narwhals computes: `n_unique()` of the
      category column, `len(df)`, the group sizes and the `unique()` labels. */
  datatype Groups = Groups(nCat: nat, nObs: nat, sampleSizes: seq<nat>, labels: seq<string>)

  /** The branch on the number of categories and the paired flag. */
  function SelectTest(nCat: nat, paired: bool, nObs: nat): (r: Result<Test>)
    ensures r.Err? ==> r.error == ValueError || r.error == NotImplementedError
    ensures r.Ok? ==> nCat >= 2
    ensures r.Ok? && r.value.TTest? ==> r.value.paired == paired
  {
    if nCat < 2 then Err(ValueError)
    else if nCat == 2 then Ok(TTest(paired))
    else if paired then Err(NotImplementedError)
    else Ok(OneWayAnova(nCat - 1, nObs - nCat))
  }

  /** Every combination of category count and pairing, and what it selects. */
  lemma SelectTestCases(nCat: nat, paired: bool, nObs: nat)
    ensures nCat < 2 ==> SelectTest(nCat, paired, nObs) == Err(ValueError)
    ensures nCat == 2 ==> SelectTest(nCat, paired, nObs) == Ok(TTest(paired))
    ensures nCat >= 3 && paired ==> SelectTest(nCat, paired, nObs) == Err(NotImplementedError)
    ensures nCat >= 3 && !paired ==>
      SelectTest(nCat, paired, nObs) == Ok(OneWayAnova(nCat - 1, nObs - nCat))
  {
  }

  /** ANOVA is chosen exactly for three or more unpaired categories, and its
      degrees of freedom add up to `n_obs - 1`. */
  lemma AnovaDegreesOfFreedom(nCat: nat, paired: bool, nObs: nat)
    ensures (SelectTest(nCat, paired, nObs).Ok? && SelectTest(nCat, paired, nObs).value.OneWayAnova?)
            <==> nCat >= 3 && !paired
    ensures SelectTest(nCat, paired, nObs).Ok? && SelectTest(nCat, paired, nObs).value.OneWayAnova? ==>
      var t := SelectTest(nCat, paired, nObs).value;
      t.dofBetween >= 2 && t.dofBetween + t.dofWithin == nObs - 1
  {
  }

  /** `self.name`. */
  function TestName(t: Test): string {
    match t
    case TTest(paired) => if paired then "Paired t-test" else "T-test"
    case OneWayAnova(_, _) => "One-way ANOVA"
  }

  /** The name tells the three tests apart. */
  lemma TestNames(t: Test)
    ensures TestName(t) in {"T-test", "Paired t-test", "One-way ANOVA"}
    ensures TestName(t) == "One-way ANOVA" <==> t.OneWayAnova?
    ensures TestName(t) == "Paired t-test" <==> t == TTest(true)
  {
  }

  /** Which scipy function runs: `ttest_rel`, `ttest_ind` or `f_oneway`. */
  function ScipyCall(t: Test): (call: ScipyTest)
    ensures call == FOneway <==> t.OneWayAnova?
    ensures call == TTestRel <==> t == TTest(true)
  {
    match t
    case TTest(paired) => if paired then TTestRel else TTestInd
    case OneWayAnova(_, _) => FOneway
  }

  /** Python's `int()` on a float: truncation toward zero. */
  function Truncate(r: real): (i: int)
    ensures r >= 0.0 ==> 0 <= i && i as real <= r < i as real + 1.0
    ensures r < 0.0 ==> i <= 0 && i as real - 1.0 < r <= i as real
  {
    if r >= 0.0 then r.Floor else -((-r).Floor)
  }

  /** `main_stat`: `t_{Student}(dof) = stat` or `F(dof_between, dof_within) = stat`,
      with `fixed(v, d)` standing for the format spec `.{d}f`. */
  function MainStat(t: Test, res: ScipyResult, fixed: (real, nat) -> string): string {
    match t
    case TTest(_) =>
      "t_{Student}(" + IntToString(Truncate(res.df)) + ") = " + fixed(res.statistic, 2)
    case OneWayAnova(b, w) =>
      "F(" + IntToString(b) + ", " + IntToString(w) + ") = " + fixed(res.statistic, 2)
  }

  /** `main_stat` names the statistic with its degrees of freedom, then
      gives its value to two decimals. */
  lemma MainStatShape(t: Test, res: ScipyResult, fixed: (real, nat) -> string)
    ensures t.TTest? ==> StartsWith(MainStat(t, res, fixed), "t_{Student}(" + IntToString(Truncate(res.df)) + ")")
    ensures t.OneWayAnova? ==>
      StartsWith(MainStat(t, res, fixed), "F(" + IntToString(t.dofBetween) + ", " + IntToString(t.dofWithin) + ")")
    ensures EndsWith(MainStat(t, res, fixed), " = " + fixed(res.statistic, 2))
  {
    var tail := " = " + fixed(res.statistic, 2);
    var head := match t
      case TTest(_) => "t_{Student}(" + IntToString(Truncate(res.df)) + ")"
      case OneWayAnova(b, w) => "F(" + IntToString(b) + ", " + IntToString(w) + ")";
    assert MainStat(t, res, fixed) == head + tail;
  }

  /** The annotation `"".join(expr_list)`. */
  function Expression(mainStat: string, pvalue: real, nObs: nat, fixed: (real, nat) -> string): string {
    "$" + mainStat + ", " + "p = " + fixed(pvalue, 4) + ", " + "n_{obs} = " + NatToString(nObs) + "$"
  }

  /** The annotation is delimited by `$` and reports the p-value and `n_{obs} = <n_obs>`. */
  lemma ExpressionShape(mainStat: string, pvalue: real, nObs: nat, fixed: (real, nat) -> string)
    ensures var e := Expression(mainStat, pvalue, nObs, fixed);
      |e| >= 2 && e[0] == '$' && e[|e| - 1] == '$' &&
      Contains(e, "p = ") && Contains(e, "n_{obs} = " + NatToString(nObs))
  {
    var e := Expression(mainStat, pvalue, nObs, fixed);
    var p := fixed(pvalue, 4);
    var n := "n_{obs} = " + NatToString(nObs);
    var k1 := 1 + |mainStat| + 2;
    var k2 := k1 + 4 + |p| + 2;
    assert e == "$" + mainStat + ", " + "p = " + p + ", " + n + "$";
    assert e[k1..k1 + 4] == "p = ";
    assert OccursAt(e, "p = ", k1);
    assert e[k2..k2 + |n|] == n;
    assert OccursAt(e, n, k2);
  }

  /** The annotation opens with `$`, `main_stat` and the p-value to four
      decimals, and closes with the observation count and `$`. */
  lemma ExpressionEnds(mainStat: string, pvalue: real, nObs: nat, fixed: (real, nat) -> string)
    ensures StartsWith(Expression(mainStat, pvalue, nObs, fixed), "$" + mainStat + ", p = " + fixed(pvalue, 4))
    ensures EndsWith(Expression(mainStat, pvalue, nObs, fixed), ", n_{obs} = " + NatToString(nObs) + "$")
  {
    var head := "$" + mainStat + ", p = " + fixed(pvalue, 4);
    var tail := ", n_{obs} = " + NatToString(nObs) + "$";
    assert Expression(mainStat, pvalue, nObs, fixed) == head + tail;
  }

  /** `expression.replace("$", "").replace("{", "").replace("}", "")`. */
  function Clean(expression: string): (r: string)
    ensures forall k :: 0 <= k < |r| ==> r[k] != '$' && r[k] != '{' && r[k] != '}'
    ensures forall k :: 0 <= k < |r| ==> r[k] in expression
  {
    Remove(Remove(Remove(expression, '$'), '{'), '}')
  }

  /** What cleaning keeps: it works character by character, dropping `$`,
      `{` and `}` and keeping every other character in place. */
  lemma CleanConcat(a: string, b: string)
    ensures Clean(a + b) == Clean(a) + Clean(b)
    ensures forall ch :: Clean([ch]) == (if ch in {'$', '{', '}'} then "" else [ch])
  {
    RemoveConcat(a, b, '$');
    RemoveConcat(Remove(a, '$'), Remove(b, '$'), '{');
    RemoveConcat(Remove(Remove(a, '$'), '{'), Remove(Remove(b, '$'), '{'), '}');
    forall ch ensures Clean([ch]) == (if ch in {'$', '{', '}'} then "" else [ch]) {
      RemoveConcat([ch], [], '$');
      RemoveConcat(Remove([ch], '$'), [], '{');
      RemoveConcat(Remove(Remove([ch], '$'), '{'), [], '}');
    }
  }

  /** Cleaning twice is cleaning once. */
  lemma CleanIdempotent(expression: string)
    ensures Clean(Clean(expression)) == Clean(expression)
  {
    var c := Clean(expression);
    RemoveAbsent(c, '$');
    RemoveAbsent(c, '{');
    RemoveAbsent(c, '}');
  }

  /** `info_about_test`: the name, then `with <n_cat> groups` only for ANOVA. */
  function TestInfo(name: string, isAnova: bool, nCat: nat): string {
    name + " " + (if isAnova then "with " + NatToString(nCat) + " groups" else "")
  }

  /** The lines `summary` prints. */
  function SummaryLines(name: string, isAnova: bool, nCat: nat, expression: string): seq<string> {
    ["Between stats comparison\n", "Test: " + TestInfo(name, isAnova, nCat), Clean(expression)]
  }

  /** The group count is reported exactly for ANOVA. */
  lemma GroupCountOnlyForAnova(name: string, isAnova: bool, nCat: nat)
    ensures isAnova ==> Contains(TestInfo(name, isAnova, nCat), "with " + NatToString(nCat) + " groups")
    ensures !isAnova ==> TestInfo(name, isAnova, nCat) == name + " "
    ensures StartsWith(TestInfo(name, isAnova, nCat), name + " ")
    ensures isAnova ==> EndsWith(TestInfo(name, isAnova, nCat), " groups")
  {
    if isAnova {
      var t := "with " + NatToString(nCat) + " groups";
      assert TestInfo(name, isAnova, nCat)[|name| + 1..] == t;
      assert OccursAt(TestInfo(name, isAnova, nCat), t, |name| + 1);
    }
  }
  /** The three printed lines: the title, the test line, and the annotation
      without `$`, `{` and `}`. */
  lemma SummaryLinesShape(name: string, isAnova: bool, nCat: nat, expression: string)
    ensures var lines := SummaryLines(name, isAnova, nCat, expression);
      |lines| == 3 && lines[0] == "Between stats comparison\n" &&
      StartsWith(lines[1], "Test: " + name + " ") && lines[2] == Clean(expression)
  {
    GroupCountOnlyForAnova(name, isAnova, nCat);
    var info := TestInfo(name, isAnova, nCat);
    assert ("Test: " + info)[..|"Test: " + name + " "|] == "Test: " + info[..|name + " "|];
  }


  /** The tick positions 1..n for n groups. */
  function Ticks(n: nat): (r: seq<int>)
    ensures |r| == n && forall k :: 0 <= k < n ==> r[k] == k + 1
  {
    seq(n, k => k + 1)
  }

  /** `f"{label}\nn = {n}"` over `zip(sample_sizes, cat_labels)`. */
  function TickLabels(sizes: seq<nat>, labels: seq<string>): (r: seq<string>)
    ensures |r| == if |sizes| < |labels| then |sizes| else |labels|
    ensures forall k :: 0 <= k < |r| ==> r[k] == labels[k] + "\nn = " + NatToString(sizes[k])
  {
    if sizes == [] || labels == [] then []
    else [labels[0] + "\nn = " + NatToString(sizes[0])] + TickLabels(sizes[1..], labels[1..])
  }

  /** The plot orientation check. */
  predicate ValidOrientation(orientation: string) {
    orientation == "vertical" || orientation == "horizontal"
  }

  /** The colour check: a given list needs at least one colour per category. */
  predicate EnoughColors(colors: Option<seq<string>>, nCat: nat) {
    colors.None? || |colors.value| >= nCat
  }
}

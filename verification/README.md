# fleur / inferplot decision core in Dafny

This project models the parts of the fleur plotting library (and of its
earlier incarnation, inferplot) that make decisions rather than draw:

- **Column type inference** (`_infer_types`, in both versions). It decides
  which of two columns is the category and which the measure.
- **Decimal counting** (`_count_n_decimals`) over the textual form of a number.
- **The beeswarm layout** (`_beeswarm`). A zero-filled offset array is
  written bin by bin, ranks alternating right and left.
- **Between-group test selection.** This covers fleur's `BetweenStats` object
  (constructor, `plot` checks and ticks, `summary`). It also covers
  inferplot's class-level `BetweenStats.fit`/`summary`, whose state persists
  between calls.
- **The input handlers** (`_InputDataHandler`, `InputDataHandler`). They turn
  `x`/`y` arguments into named Series.
- **The `vectorize` decorator** of the scratch file `sandbox2.py`, which
  broadcasts list arguments cyclically.

Modules, one per source file, plus shared helpers:

- `Errors`: Python exceptions as `Result`/`Outcome` values.
- `Text`: `str()` of integers, `split`, `rstrip`, `replace`.
- `DTypes`: narwhals dtypes as an enumeration.
- `PyData`: the argument kinds, Series and dataframes.
- `FleurInferTypes` and `InferplotInferTypes`.
- `Decimals`.
- `Beeswarm`.
- `BetweenTests`: the test choice and the strings both `BetweenStats` versions share.
- `FleurBetweenStats` and `InferplotBetweenStats`.
- `FleurInputData` and `InferplotInputData`.
- `Vectorize`.

The third-party calls (narwhals, scipy, numpy) and the float formatting
enter the model as parameters:

- `groupBy(df, col)`: narwhals `group_by`/`unique`/`n_unique`/`len`.
- `scipy(test, df, cat, num)`: the scipy.stats tests.
- `fixed(v, d)`: float formatting with `d` decimals.
- The bin edges that `np.histogram` returns.

## Model

| member | source | states |
|---|---|---|
| FleurInferTypes.Lookup | fleur/_utils/infer_types.py:17 | a column missing from the schema raises `KeyError`; otherwise its dtype |
| FleurInferTypes.IsCategorical | fleur/_utils/infer_types.py:16-22 | a categorical dtype is never numeric |
| FleurInferTypes.IsNumerical | fleur/_utils/infer_types.py:24-26 | numerical means exactly numeric: the `not is_categorical` guard never removes a dtype |
| FleurInferTypes.InferTypes | fleur/_utils/infer_types.py:28-42 | only `KeyError` is raised; a result is `(x, y)` or `(y, x)`, categorical column first, numerical second |
| FleurInferTypes.CategoricalDTypes | fleur/_utils/infer_types.py:16-22 | exactly Categorical, Enum and String are categorical |
| FleurInferTypes.CategoricalExcludesNumerical | fleur/_utils/infer_types.py:24-26 | no dtype is both categorical and numerical |
| FleurInferTypes.CategoricalFirst | fleur/_utils/infer_types.py:34-35 | categorical x with numerical y gives `(x, y)` |
| FleurInferTypes.NumericalFirst | fleur/_utils/infer_types.py:36-37 | numerical x with categorical y gives `(y, x)` |
| FleurInferTypes.InferTypesSucceedsIff | fleur/_utils/infer_types.py:34-42 | success exactly when both columns exist and one is categorical and the other numerical |
| FleurInferTypes.InferTypesRejects | fleur/_utils/infer_types.py:38-42 | two categorical, two numerical, or a neither-nor column raise `KeyError` |
| FleurInferTypes.InferTypesExamples | tests/test_utils.py:35-48 | the four test frames: `("y","x")`, `("x","y")`, then `KeyError` twice |
| InferplotInferTypes.InferTypes | inferplot/_utils/infer_types.py:31-45 | same contract as fleur's, with inferplot's categorical rule |
| InferplotInferTypes.IsCategorical | inferplot/_utils/infer_types.py:16-25 | a categorical dtype, Object included, is never numeric |
| InferplotInferTypes.IsNumerical | inferplot/_utils/infer_types.py:27-29 | numerical means exactly numeric |
| InferplotInferTypes.CategoricalIsFleurPlusObject | inferplot/_utils/infer_types.py:16-25 | categorical is fleur's rule plus the Object dtype |
| InferplotInferTypes.CategoricalExcludesNumerical | inferplot/_utils/infer_types.py:27-29 | the two predicates never hold together |
| InferplotInferTypes.SameNumerical | inferplot/_utils/infer_types.py:27-29 | numerical means the same in both versions |
| InferplotInferTypes.InferTypesCases | inferplot/_utils/infer_types.py:37-45 | `(x, y)`, `(y, x)`, otherwise `KeyError` |
| InferplotInferTypes.ExtendsFleur | inferplot/_utils/infer_types.py:16-25 | every pair fleur accepts gets the same answer here |
| InferplotInferTypes.DiffersOnlyOnObject | inferplot/_utils/infer_types.py:22-23 | where the versions differ, one column has the Object dtype |
| InferplotInferTypes.ObjectNowCategorical | inferplot/_utils/infer_types.py:22-23 | Object with a numeric column: accepted here, `KeyError` in fleur |
| Decimals.SignificantFraction | fleur/_utils/count_decimals.py:20 | length of the fraction without trailing zeros: what it drops is all zeros, what it keeps ends in a non-zero |
| Decimals.CountDecimals | fleur/_utils/count_decimals.py:13-22 | a non-number raises `TypeError`; a text without `.` gives 0 |
| Decimals.OnePoint | fleur/_utils/count_decimals.py:18-20 | with one `.`, the count is the fraction's significant length |
| Decimals.PointPosition | fleur/_utils/count_decimals.py:19 | splitting at the only `.` is unambiguous |
| Decimals.ManyPoints | fleur/_utils/count_decimals.py:19 | two or more `.` fail the two-way unpacking with `ValueError` |
| Decimals.Bounded | fleur/_utils/count_decimals.py:19-20 | the count never exceeds the fraction's length |
| Decimals.TrailingZeroIgnored | fleur/_utils/count_decimals.py:20 | appending a trailing zero does not change the count |
| Decimals.IntegerPartIgnored | fleur/_utils/count_decimals.py:19-20 | the integer part does not affect the count |
| Decimals.ExampleFourDigits | tests/test_utils.py:16 | `12.3456` gives 4 |
| Decimals.ExampleThreeDigits | tests/test_utils.py:17 | `0.123` gives 3 |
| Decimals.ExampleLeadingZeros | tests/test_utils.py:18 | `0.0001` gives 4 |
| Decimals.ExampleSixDigits | tests/test_utils.py:19 | `123.456789` gives 6 |
| Decimals.ExamplesWithoutDigits | tests/test_utils.py:20-32 | `2.0`, `100.0`, `500`, `0.0`, `1.0` give 0; a non-number raises `TypeError` |
| Text.RStrip | fleur/_utils/count_decimals.py:20 | `rstrip`: a prefix; the removed tail is all the stripped char; the rest does not end in it |
| Text.SplitJoin | fleur/_utils/count_decimals.py:19 | `split` loses nothing: joining the pieces gives back the string |
| Text.Split | fleur/_utils/count_decimals.py:19 | `split` always returns at least one piece |
| Text.SplitShape | fleur/_utils/count_decimals.py:19 | `split` gives one piece more than separators, none containing it |
| Text.NatToStringRoundTrip | fleur/betweenstats.py:106 | the decimal text of `n_obs` reads back as `n_obs` |
| Text.Remove | fleur/betweenstats.py:236-238 | `replace(c, "")` leaves no `c` and is shorter by exactly the number of `c`s; every kept char comes from the input |
| Text.RemoveConcat | fleur/betweenstats.py:236-238 | `replace(c, "")` works char by char: it splits over concatenation, drops a lone `c` and keeps any other char, so the kept chars stay in order |
| Beeswarm.NumBins | fleur/_utils/beeswarm.py:17 | `ceil(n / 6)` |
| Beeswarm.BinOf | fleur/_utils/beeswarm.py:25-26 | the bin whose `ymin < y <= ymax` test passes, or none |
| Beeswarm.BinsDisjoint | fleur/_utils/beeswarm.py:25-26 | with increasing edges, a value passes at most one bin's test |
| Beeswarm.BinOfExact | fleur/_utils/beeswarm.py:25-26 | a value in bin b is assigned to b |
| Beeswarm.Where | fleur/_utils/beeswarm.py:26 | exactly the indices in the bin, ascending |
| Beeswarm.CountIfPermutation | fleur/_utils/beeswarm.py:30 | reordering (argsort) does not change counts |
| Beeswarm.ArgSort | fleur/_utils/beeswarm.py:30 | a permutation of the bin's indices, sorted by value |
| Beeswarm.SortedRank | fleur/_utils/beeswarm.py:30-32 | in sorted order an index's rank is its position |
| Beeswarm.ArgSortRank | fleur/_utils/beeswarm.py:30-32 | the k-th of the sorted indices has rank k in its bin |
| Beeswarm.AssignEveryOther | fleur/_utils/beeswarm.py:31-35 | `x[left] = dx*(0.5+arange)` (or right, negated) writes ranks of one parity, nothing else |
| Beeswarm.LayoutStep | fleur/_utils/beeswarm.py:25-35 | one bin's writes extend the finished layout by exactly that bin |
| Beeswarm.Layout | fleur/_utils/beeswarm.py:22-37 | zero-filled, same length as y, every offset equals the per-rank offset of its bin (0 outside all bins) |
| Beeswarm.LowestEdgeUntouched | fleur/_utils/beeswarm.py:22-26 | a value on or below the lowest edge keeps offset 0 |
| Beeswarm.RankedOffset | fleur/_utils/beeswarm.py:31-35 | rank 2j gets `dx*(0.5+j)`, rank 2j+1 gets `-dx*(0.5+j)` |
| Beeswarm.OffsetSign | fleur/_utils/beeswarm.py:34-35 | for dx > 0, even ranks are right (positive) and odd ranks left |
| Beeswarm.SideCounts | fleur/_utils/beeswarm.py:31-32 | a bin of m points has ceil(m/2) on the positive side and floor(m/2) on the negative |
| Beeswarm.MaxHistogramCount | fleur/_utils/beeswarm.py:19-20 | `counts.max()`: an upper bound attained by some bin |
| Beeswarm.DxAsWritten | fleur/_utils/beeswarm.py:23 | dx is positive for a positive width |
| Beeswarm.Beeswarm | fleur/_utils/beeswarm.py:16-37 | empty input raises `ValueError`; otherwise the layout with dx as written |
| Beeswarm.DxBlowsUp | fleur/_utils/beeswarm.py:23 | with at most one point per histogram bin, dx is 100000 times the width |
| Beeswarm.SinglePointAsWritten | fleur/_utils/beeswarm.py:23-34 | `y=[5.0]`, width 1 gives offset 50000 |
| Beeswarm.MaxBinSize | fleur/_utils/beeswarm.py:26 | an upper bound on every layout bin's size |
| Beeswarm.BoundedOffsets | fleur/_utils/beeswarm.py:23-35 | with the corrected spacing every offset lies in [-width, width] |
| Beeswarm.BeeswarmBounded | fleur/_utils/beeswarm.py:16-37 | corrected `_beeswarm`: same layout, all offsets within the width |
| BetweenTests.SelectTest | fleur/betweenstats.py:69-97 | only `ValueError`/`NotImplementedError`; success needs 2+ categories; a t-test keeps the paired flag |
| BetweenTests.SelectTestCases | fleur/betweenstats.py:69-97 | <2 → `ValueError`; 2 → t-test (paired or not); 3+ paired → `NotImplementedError`; 3+ → ANOVA (n_cat-1, n_obs-n_cat) |
| BetweenTests.AnovaDegreesOfFreedom | fleur/betweenstats.py:96-97 | ANOVA exactly for 3+ unpaired categories; the two dofs add up to n_obs-1 |
| BetweenTests.Truncate | fleur/betweenstats.py:83 | `int()` truncates toward zero |
| BetweenTests.TestNames | fleur/betweenstats.py:73-93 | one of the three names; "One-way ANOVA" exactly for ANOVA and "Paired t-test" exactly for a paired t-test |
| BetweenTests.ScipyCall | fleur/betweenstats.py:75-92 | `f_oneway` exactly for ANOVA and `ttest_rel` exactly for a paired t-test |
| BetweenTests.MainStatShape | fleur/betweenstats.py:83-100 | `t_{Student}(<int(df)>)` for a t-test or `F(<dof_between>, <dof_within>)` for ANOVA, then ` = ` and the statistic to 2 decimals |
| BetweenTests.ExpressionEnds | fleur/betweenstats.py:102-109 | starts with `$`, `main_stat` and the p-value to 4 decimals; ends with `n_{obs} = <n_obs>$` |
| BetweenTests.ExpressionShape | fleur/betweenstats.py:102-109 | the annotation starts and ends with `$` and contains `p = ` and `n_{obs} = <n_obs>` |
| BetweenTests.Clean | fleur/betweenstats.py:236-238 | no `$`, `{`, `}` left; nothing new added |
| BetweenTests.CleanConcat | fleur/betweenstats.py:236-238 | cleaning splits over concatenation, drops a lone `$`, `{` or `}` and keeps any other char |
| BetweenTests.CleanIdempotent | fleur/betweenstats.py:236-238 | cleaning twice equals cleaning once |
| BetweenTests.GroupCountOnlyForAnova | fleur/betweenstats.py:230-234 | the test line starts with the name and a space; `with <n_cat> groups` appears for ANOVA, at the end, and nothing follows the name otherwise |
| BetweenTests.SummaryLinesShape | fleur/betweenstats.py:228-240 | three lines: the title, `Test: <name> ...`, and `Clean` of the annotation |
| BetweenTests.Ticks | fleur/betweenstats.py:207 | ticks 1..n |
| BetweenTests.TickLabels | fleur/betweenstats.py:208-211 | `zip` length, each label `"<label>\nn = <size>"` |
| FleurBetweenStats.Analyse | fleur/betweenstats.py:54-73 | on success the input handler succeeded, the columns are a categorical/numerical permutation of the names, 2+ categories, ANOVA iff 3+ |
| FleurBetweenStats.AnalyseErrors | fleur/betweenstats.py:54-90 | handler errors first, then `KeyError`, then the category-count errors |
| FleurBetweenStats.BetweenStats.constructor | fleur/betweenstats.py:55-109 | all attributes set consistently with the chosen test (`Valid`) |
| FleurBetweenStats.BetweenStats.New | fleur/betweenstats.py:38-109 | raises exactly when `Analyse` does; otherwise a fresh object with name, statistic, p-value, dof, main_stat and annotation from the chosen test |
| FleurBetweenStats.BetweenStats.Plot | fleur/betweenstats.py:145-215 | bad orientation or too few colours raise `ValueError`; otherwise ticks 1..n with their labels on the axis matching the orientation |
| FleurBetweenStats.BetweenStats.Summary | fleur/betweenstats.py:221-240 | title line, test line with group count only for ANOVA, and the third line is `Clean` of the stored annotation |
| InferplotBetweenStats.Prepare | inferplot/betweenstats.py:84-103 | invalid orientation fails first with `ValueError`; success implies enough colours and inferred columns |
| InferplotBetweenStats.FitAsWritten | inferplot/betweenstats.py:84-211 | of the failures the model covers, the only one that writes state is the paired 3+ case, which sets `is_ANOVA` |
| InferplotBetweenStats.FitCorrected | inferplot/betweenstats.py:84-211 | a failed fit writes nothing; a completed fit leaves a fitted, consistent class |
| InferplotBetweenStats.CompletedValid | inferplot/betweenstats.py:149-209 | the attributes a completed fit writes are consistent with the test the category count selects |
| InferplotBetweenStats.SummaryOf | inferplot/betweenstats.py:213-239 | `RuntimeError` exactly before a completed fit; otherwise three lines: the title, the test line and `Clean` of the stored annotation |
| InferplotBetweenStats.FitSucceedsIff | inferplot/betweenstats.py:84-167 | orientation, then column types, then colours, then category count decide the exception |
| InferplotBetweenStats.DofPersists | inferplot/betweenstats.py:160-176 | ANOVA keeps an earlier `dof`; a t-test keeps earlier `dof_between`/`dof_within` |
| InferplotBetweenStats.SummaryBeforeFit | inferplot/betweenstats.py:209-225 | `summary` raises `RuntimeError` before any fit and after failed fits |
| InferplotBetweenStats.FitPreservesValid | inferplot/betweenstats.py:201-209 | once fitted the class stays fitted and consistent, and `summary` succeeds |
| InferplotBetweenStats.OrientationFirst | inferplot/betweenstats.py:84-87 | invalid orientation raises `ValueError` whatever the data |
| InferplotBetweenStats.ViolinOffFailsAsWritten | inferplot/betweenstats.py:119-143 | as written, `plot_violin=False` raises `UnboundLocalError` |
| InferplotBetweenStats.ViolinIrrelevant | inferplot/betweenstats.py:119-143 | corrected: the violin flag does not change the outcome |
| InferplotBetweenStats.CorrectedAgreesAsWritten | inferplot/betweenstats.py:84-211 | the versions agree except on `plot_violin=False` and paired 3+ categories |
| InferplotBetweenStats.StaleSummaryAsWritten | inferplot/betweenstats.py:162-233 | as written, a failed paired ANOVA after a t-test makes `summary` say "T-test with 2 groups" |
| InferplotBetweenStats.FailedFitKeepsSummary | inferplot/betweenstats.py:162-233 | corrected: a failed fit leaves `summary` unchanged |
| InferplotBetweenStats.BetweenStats.constructor | inferplot/betweenstats.py:16 | the class starts with no fit attributes |
| InferplotBetweenStats.BetweenStats.Fit | inferplot/betweenstats.py:84-211 | the new outcome and class attributes are `FitCorrected` of the old ones |
| InferplotBetweenStats.BetweenStats.Commit | inferplot/betweenstats.py:149-209 | the attribute writes of a completed fit |
| InferplotBetweenStats.BetweenStats.SetDof | inferplot/betweenstats.py:159-176 | `dof` for a t-test, `dof_between`/`dof_within` for ANOVA, the others untouched |
| InferplotBetweenStats.BetweenStats.SetOutcome | inferplot/betweenstats.py:201-209 | writes the statistic, p-value, `main_stat`, `is_paired`, the annotation, `n_cat`, `n_obs` and `_is_fitted`, and no other attribute |
| InferplotBetweenStats.BetweenStats.Summary | inferplot/betweenstats.py:213-239 | `RuntimeError` unless fitted; three lines when fitted; in every case `SummaryOf` the current class attributes |
| PyData.NameOr | fleur/_utils/input_data_handling.py:27-28 | `name or default`: falsy names fall back |
| PyData.FromDict | fleur/_utils/input_data_handling.py:29 | the frame has the two keys; an equal second key overwrites the first |
| FleurInputData.NestedListIsArrayLike | fleur/_utils/input_data_handling.py:33-49 | a list of lists is array-like whatever its items: `x=[[1,2],[3,4]]`, `y=[5,6]` without data takes the array branch and keeps its rows |
| PyData.Column | fleur/_utils/input_data_handling.py:17-18 | `df[name]` is a Series named `name` with that column's values and dtype |
| PyData.SchemaOf | fleur/_utils/infer_types.py:17 | `df.schema` has exactly the frame's columns, each with its dtype |
| PyData.NewSeries | fleur/_utils/input_data_handling.py:34-35 | `nw.new_series(name, values)` is named `name` and keeps the values and their dtype |
| PyData.ShapesExclusive | fleur/_utils/input_data_handling.py:8-33 | the three accepted shapes are distinct kinds of argument, so no pair fits two of them |
| FleurInputData.Dispatch | fleur/_utils/input_data_handling.py:7-46 | error exactly for strings without data/columns (`ValueError`) or mixed shapes (`TypeError`); both names are frame columns |
| FleurInputData.ColumnNames | fleur/_utils/input_data_handling.py:8-21 | column names kept, columns taken from `data`, source "dataframe" |
| FleurInputData.SeriesNames | fleur/_utils/input_data_handling.py:24-30 | Series names kept, falsy ones become "x"/"y", source "series" |
| FleurInputData.SameNameSeries | fleur/_utils/input_data_handling.py:27-29 | two Series of one name give a one-column frame holding `y` |
| FleurInputData.ArrayNames | fleur/_utils/input_data_handling.py:33-49 | array-likes become Series "x"/"y", source "array" |
| FleurInputData.InputDataHandler.constructor | fleur/_utils/input_data_handling.py:16-39 | stores the six fields |
| FleurInputData.InputDataHandler.GetInfo | fleur/_utils/input_data_handling.py:51-59 | the six stored fields, unchanged |
| FleurInputData.InputDataHandler.New | fleur/_utils/input_data_handling.py:6-46 | raises exactly as `Dispatch`; otherwise `get_info()` is `Dispatch`'s result |
| InferplotInputData.Dispatch | inferplot/data_input.py:6-45 | same errors as fleur's; data is stored exactly in the "dataframe" case, and there it is the `data` passed in |
| InferplotInputData.AgreesWithFleur | inferplot/data_input.py:6-45 | same acceptance, exceptions, names, values and source as fleur's handler |
| InferplotInputData.NoDataOutsideColumns | inferplot/data_input.py:25-37 | outside the column case `data` is None and the Series are named "x"/"y" |
| InferplotInputData.InputDataHandler.constructor | inferplot/data_input.py:16-39 | stores `data` and the five info fields |
| InferplotInputData.InputDataHandler.GetInfo | inferplot/data_input.py:50-57 | five stored fields, no dataframe |
| InferplotInputData.InputDataHandler.New | inferplot/data_input.py:6-45 | raises exactly as `Dispatch`; otherwise stores its `data` and info |
| Vectorize.MaxLen | sandbox2.py:8 | the largest argument length (lists by length, others 1), attained by one argument |
| Vectorize.Broadcast | sandbox2.py:11-16 | one value per argument: `arg[i % len(arg)]` for lists, the argument itself otherwise |
| Vectorize.Wrapped | sandbox2.py:6-19 | fails, with `ZeroDivisionError`, exactly when a list argument is present, one list is empty and `max_len > 0`; a direct call exactly without lists; otherwise max_len results |
| Vectorize.ContainsList | sandbox2.py:7 | the `any` scan finds a list argument exactly when there is one |
| Vectorize.Longest | sandbox2.py:8 | the loop computes `MaxLen` |
| Vectorize.NewArgs | sandbox2.py:11-16 | the inner loop builds call i's arguments, or raises on an empty list |
| Vectorize.Wrapper | sandbox2.py:6-19 | the nested loops return `Wrapped`'s result |
| Vectorize.NoListCallsOnce | sandbox2.py:7-19 | without lists, `func` is called once on the arguments as given |
| Vectorize.CallArguments | sandbox2.py:7-18 | with a list and no empty list the call succeeds with `max_len` results; call i is `func` on `arg[i % len(arg)]` per list and the other arguments unchanged |
| Vectorize.EmptyLists | sandbox2.py:8-14 | an empty list beside a non-empty argument raises `ZeroDivisionError`; all-empty lists give `[]` |
| Vectorize.EqualLengthsPairUp | sandbox2.py:14 | lists of one length pair up elementwise |
| Vectorize.AddPairs | sandbox2.py:36 | `add([1, 2], [10, 20])` is `[11, 22]` |
| Vectorize.AddScalar | sandbox2.py:35 | `add([1, 2, 3], 10)` is `[11, 12, 13]` |

## Left out

- PyData.NameOr: models `x.name or "x"` for a missing or empty string name only; a Series name that is falsy without being a string (such as `0`) cannot be expressed, because names are strings here.
- Drawing. Left out: matplotlib (violin, box and scatter plots), the colour loops, `_themify`/`themify`, the default colour cycle and `ax`. `FleurBetweenStats.BetweenStats.Plot` returns only the tick positions, the labels and the axis they go on.
- scipy's `ttest_ind`, `ttest_rel` and `f_oneway` are third-party calls. They enter as the parameter `scipy`, which receives the frame and the two column names. The grouped `_result` lists are not built.
- InferplotBetweenStats.FitAsWritten: exceptions raised inside scipy are not modelled, because the parameter `scipy` always returns a result. The program has a second path that leaves the class half-updated: `fit(paired=True)` on two groups of unequal size writes `cls.is_ANOVA = False` (inferplot/betweenstats.py:150), then `st.ttest_rel` raises `ValueError` (line 152). After an earlier ANOVA fit, `summary()` would then print "One-way ANOVA " with no group count. fleur's `__init__` raises at the same call (fleur/betweenstats.py:74-76), but no object survives there.
- FleurInputData.Dispatch: exceptions raised inside narwhals or pandas are not modelled. For example, a numpy array with more than one dimension is accepted by `_is_array_like`, but `nw.new_series(..., backend="pandas")` (fleur/_utils/input_data_handling.py:34-35, inferplot/data_input.py:35-36) raises `ValueError` for it, because a pandas Series must be 1-dimensional. The model's `Dispatch` returns `Ok` there. Inner lists and tuples are fine: pandas stores them as object items.
- InferplotInputData.Dispatch: the same gap as `FleurInputData.Dispatch`; an n-dimensional numpy array makes `nw.new_series` (inferplot/data_input.py:35-36) raise `ValueError`, and the model returns `Ok`.
- narwhals is not modelled. `group_by`, `unique`, `n_unique` and `len` are the parameter `groupBy`. `nw.from_native` is the identity. dtype inference for arrays (the pandas backend) is a dtype carried by the argument.
- Floating-point numbers are `real`, so there is no rounding. Float formatting (`:.2f`, `:.4f`) is the parameter `fixed`.
- `Decimals.CountDecimals` takes the text `f"{f}"` as given. Python's float-to-text conversion is not modelled. The model follows the code on that text: a scientific form such as `1e-05` has no `.` and gives 0, and a text with two `.` raises `ValueError`.
- `Beeswarm.Beeswarm`: `np.histogram` is not modelled. Its edges are an input, strictly increasing and `ceil(n/6)+1` long, and its counts are computed from them with numpy's half-open bins.
- `Beeswarm.ArgSort` breaks ties between equal values by index. numpy's default argsort is not stable, so its order among equal values is unspecified.
- fleur's `plot` imports `_beeswarm` from `.upstream` and calls it with one argument. `.upstream` is not part of this model, and the model follows `_beeswarm(y, width)` in fleur/_utils/beeswarm.py.
- The random jitter of inferplot's scatter plot is drawing only.
- `scatter_default_kws.update(box_kws)` (inferplot/betweenstats.py:117) only affects drawing styles.
- inferplot's `fit` writes attributes on the class. Dafny has no mutable static state, so one `BetweenStats` instance stands for the class object. `InferplotBetweenStats.BetweenStats.Fit` implements the corrected behaviour (see Findings). The as-written behaviour is `InferplotBetweenStats.FitAsWritten`.
- `InferplotBetweenStats.BetweenStats.Fit` does not model the `cls.ax` attribute.
- Vectorize: Python's positional arguments can have different types. The model gives them one element type `T`, which may itself be a sum type. `**kwargs` is one value passed to every call. `functools.wraps` and the module's own `print` lines are not modelled.

## Findings

| source | as written | input that shows it | evidently intended | confidence | as-written member | corrected member |
|---|---|---|---|---|---|---|
| fleur/_utils/beeswarm.py:23 | `dx = width / (max_bin_count // 2 + 1e-5)`: when no bin holds two points, the divisor is 1e-5 | `y = [5.0]`, `width = 1` (edges `[4.5, 5.5]`) gives offset 50000 | offsets stay within `width` of the centre | high; not executed | Beeswarm.SinglePointAsWritten | Beeswarm.BoundedOffsets |
| inferplot/betweenstats.py:119-143 | `violin_artists` is assigned only under `if plot_violin:` but is read unconditionally | `fit(..., plot_violin=False)` on valid data raises `UnboundLocalError` | violins are coloured only when drawn, and the fit completes | high; not executed | InferplotBetweenStats.ViolinOffFailsAsWritten | InferplotBetweenStats.ViolinIrrelevant |
| inferplot/betweenstats.py:162-167 | `cls.is_ANOVA = True` is written before the paired check raises `NotImplementedError` | a t-test fit on two groups, then `fit(paired=True)` on three groups, then `summary()` prints "T-test with 2 groups" | a failed fit leaves the class attributes unchanged | high; not executed | InferplotBetweenStats.StaleSummaryAsWritten | InferplotBetweenStats.FailedFitKeepsSummary |

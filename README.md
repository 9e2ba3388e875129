# Bond scenario arithmetic and chart list logic

This project models two small computational pieces of a reporting toolkit.

- **PortfolioSummaryReport** models `PDFDataExtractor`. Its constructor stores
  per-currency hedge costs and builds the nested hedge table `b_init`, with a
  "Hedge Cost" entry and a "Weight" entry for USD, GBP and EUR. `calculate_hz`
  computes the horizon return: effective yield, plus a roll-up term, minus the
  weighted hedge cost. `calculate_scenario` computes four rate-shock returns,
  and `main` merges the horizon return, the scenarios and the key figures.
- **ChartGenerator** models the list logic of the chart helper.
  `PlotGenerator.__adjust_length__` drops NaNs from the x series and from each
  y series, then aligns their lengths; `__percentage__` then scales every y
  series by 100 in place. The `_trendline` helper has a
  case-insensitive method dispatch, a 10-point moving average, and the
  degree-search loop of its polynomial fit.

Python floats are modelled as exact `real`s. A possibly-missing array element
is `Value = Num(r) | NaN`. Exceptions the source raises become `Outcome` or
`Result` values.

Notes on the code's behaviour:

- The two "50bp" scenarios shift hz by `dur/(100/2)`, which is `dur/50`. That
  is twice the "100bp" shift of `dur/100`. The labels are kept as the code
  writes them. So for hz = 0.03 and duration 5, "50bp down" is -0.07 (see
  `WorkedExample`). A move of 50 basis points would be a shift of `dur/200`.
- The trendline strategies raise on data the numeric library rejects.
  `polyfit`, `linregress` and `x.min()` raise on an empty x or on x and y of
  different lengths (`InvalidSeries`). `linregress` also rejects some data of
  the right shape, such as x values that are all equal (`FitFailed`).
  `np.convolve` raises on an empty y. Each strategy raises before it stores
  anything. The as-written alignment of `__adjust_length__` can leave x and
  a y series of different lengths. In `scatterplot` such series make
  `axs.scatter` (ChartGenerator.py line 116) raise before any trendline is
  fitted. On its own, `_trendline` rejects them in ols and poly
  (`InvalidSeries`).
- There is no invalid-method error. An unknown method name runs no strategy,
  and the final `return self.x_pred` fails only if nothing is stored yet.
- The degree search is modelled as written: only the last degree's error is
  compared (see Findings).
- The moving-average x axis is `x[:len(y_pred)]`. It has the length of
  `y_pred` only when x is at least that long.
- With fewer than 10 points, `np.convolve` swaps its operands. Each output
  value is then the series' total divided by 10, and there are
  `11 - len(y)` of them.

## Model

| member | source | states |
|---|---|---|
| `PortfolioSummaryReport.PdfDataExtractor.constructor` | PortfolioSummaryReport.py:8-13 | the stored costs are the arguments; weights are USD 1, GBP 0, EUR 0; `b_init` holds exactly those costs and weights and agrees with the fields |
| `PortfolioSummaryReport.PdfDataExtractor.Default` | PortfolioSummaryReport.py:8 | the default costs are 0.025, 0.02 and 0.0, with the default weights |
| `PortfolioSummaryReport.PdfDataExtractor.SetUp` | PortfolioSummaryReport.py:15-23 | rebuilds `b_init` from the unchanged costs and the retrieved weights |
| `PortfolioSummaryReport.PdfDataExtractor.RetrieveWeight` | PortfolioSummaryReport.py:25-29 | sets the weights to USD 1, GBP 0, EUR 0 and changes nothing else; the fallback branch cannot be reached |
| `PortfolioSummaryReport.WeightedSumOfCurrencies` | PortfolioSummaryReport.py:58 | the three-term hedge-cost expression equals the sum of cost times weight over USD, GBP and EUR |
| `PortfolioSummaryReport.CalculateHz` | PortfolioSummaryReport.py:54-60 | result has the single key "hz return", whose value is yield + rul*(dur-1)/100000 - the weighted hedge cost; with rul = 0 it is yield - the weighted hedge cost |
| `PortfolioSummaryReport.CalculateScenario` | PortfolioSummaryReport.py:62-68 | exactly four keys with hz ± dur/100 and hz ± dur/50; each up/down pair averages to hz; the 50bp shift is twice the 100bp shift; for dur > 0 the order is 50bp up > 100bp up > hz > 100bp down > 50bp down, reversed for dur < 0, all equal to hz for dur = 0 |
| `PortfolioSummaryReport.DefaultWeightsCostUsd` | PortfolioSummaryReport.py:22-29 | with the constructor's weights the weighted hedge cost is the USD cost |
| `PortfolioSummaryReport.DefaultHorizonReturn` | PortfolioSummaryReport.py:54-60 | for a freshly built table, hz = yield + rul*(dur-1)/100000 - USD cost |
| `PortfolioSummaryReport.WorkedExample` | PortfolioSummaryReport.py:62-68 | yield 0.03, duration 5, rul 0 and default costs give hz 0.005; around hz 0.03 with duration 5, "100bp up" is 0.08 and "50bp down" is -0.07 |
| `PortfolioSummaryReport.PdfDataExtractor.RunReport` | PortfolioSummaryReport.py:70-78 | `rul` defaults to 0 as in `main`; the result's keys are "hz return", the four scenario labels and the key-figure keys; key figures win on a clash; the scenarios are computed from that same hz and from the key figures' modified duration |
| `ChartGenerator.DropNaN` | ChartGenerator.py:156 | the result has no NaN, is no longer than the input, and holds exactly the input's non-NaN values |
| `ChartGenerator.DropNaNAppend` | ChartGenerator.py:156 | filtering distributes over concatenation, so kept elements stay in input order |
| `ChartGenerator.DropNaNOfNaNFree` | ChartGenerator.py:156 | a NaN-free series is unchanged by filtering |
| `ChartGenerator.DropNaNIdempotent` | ChartGenerator.py:156-158 | filtering twice equals filtering once |
| `ChartGenerator.ScaledDropNaN` | ChartGenerator.py:147 | multiplying a series by 100 commutes with dropping its NaNs |
| `ChartGenerator.MinLength` | ChartGenerator.py:159-160 | a lower bound on every series' length, reached by some series |
| `ChartGenerator.Adjusted` | ChartGenerator.py:156-167 | the number of y series is unchanged; x and every y[i] are NaN-free prefixes of their filtered originals; len(x) = min(len(x'), min len(y_i')); every y[i] is at least as long as x; all y[i] have len(x) when x' was shorter than every y_i'; otherwise the y series are only filtered |
| `ChartGenerator.AdjustedIdempotent` | ChartGenerator.py:152-167 | aligning an already aligned pair changes nothing |
| `ChartGenerator.AdjustedLengthsDiffer` | ChartGenerator.py:159-167 | as written, x of length 3 with y series of lengths 1 and 2 leaves y series of lengths 1 and 2 beside an x of length 1 |
| `ChartGenerator.Aligned` | ChartGenerator.py:152-155 | the alignment the docstring describes: every series is a NaN-free prefix of its filtered original, and all have the common minimum length |
| `ChartGenerator.AlignedAgreesWhenXShortest` | ChartGenerator.py:165-167 | when the filtered x is shorter than every filtered y series, the as-written and the intended alignment coincide |
| `ChartGenerator.PlotGenerator.constructor` | ChartGenerator.py:214 | stores the x series and the list of y series as the caller passes them |
| `ChartGenerator.PlotGenerator.Percentage` | ChartGenerator.py:144-150 | with `percentage` set, every y series is replaced by itself times 100, element by element, NaN staying NaN; otherwise y is unchanged |
| `ChartGenerator.PlotGenerator.AdjustLength` | ChartGenerator.py:152-167 | with at least one y series, the new x and y are `Adjusted` of the old ones; with none, it fails as `min()` does, after x has been filtered and with y unchanged |
| `ChartGenerator.PlotGenerator.DropNaNEach` | ChartGenerator.py:157-158 | after the loop every y[i] is its NaN-filtered original |
| `ChartGenerator.PlotGenerator.TruncateEach` | ChartGenerator.py:166-167 | after the loop every y[i] is the prefix of its old value of the given length |
| `ChartGenerator.Lower` | ChartGenerator.py:257 | same length, each character lower-cased |
| `ChartGenerator.ParseMethod` | ChartGenerator.py:256-262 | returns a strategy only when the lower-cased string is that strategy's name; returns none when it matches no name |
| `ChartGenerator.ParseMethodName` | ChartGenerator.py:257-261 | each strategy's own name selects it, and lower-casing the input never changes the selection |
| `ChartGenerator.RollingMean` | ChartGenerator.py:267 | for window w <= len(y) the length is len(y) - w + 1, and element i is (y[i] + ... + y[i+w-1]) / w |
| `ChartGenerator.RollingMeanOfConstant` | ChartGenerator.py:267 | a constant series averages to the same constant |
| `ChartGenerator.RollingMeanPrefix` | ChartGenerator.py:267 | the moving average of a prefix is the matching prefix of the moving average |
| `ChartGenerator.WindowMean` | ChartGenerator.py:267 | `np.convolve(y, ones(w), 'valid') / w`: fails exactly on an empty y; for len(y) >= w it is the rolling mean; for a shorter y it is w - len(y) + 1 copies of the total over w |
| `ChartGenerator.WindowMeanAtWindowLength` | ChartGenerator.py:267 | at len(y) = w the rolling mean and the swapped computation agree: one value, the total over w |
| `ChartGenerator.SelectDegree` | ChartGenerator.py:271-285 | as written, each pass fits and overwrites `y_pred`, and the error is taken once after the loop: the best degree is max_degree when the last fit's error is below infinity, and stays unset with error infinity otherwise |
| `ChartGenerator.SelectBestDegree` | ChartGenerator.py:271-285 | with the error and the comparison inside the loop: the first degree of least finite error, or unset exactly when no error is finite |
| `ChartGenerator.DegreeSearchOnNonIncreasingErrors` | ChartGenerator.py:275-285 | when the errors are finite and never rise with the degree, as in-sample least squares guarantees, the as-written loop picks max_degree and reports the same least error as the corrected loop |
| `ChartGenerator.DegreeSearchDiscrepancy` | ChartGenerator.py:275-285 | for data every degree fits exactly (all errors 0), the as-written loop picks 5 and the corrected loop picks 1 |
| `ChartGenerator.DegreeSearchUndefinedLast` | ChartGenerator.py:275-288 | with errors 0 up to degree 4 and NaN for degree 5, the as-written loop picks no degree and the corrected loop picks 1 |
| `ChartGenerator.Trendline.constructor` | ChartGenerator.py:251-254 | stores the method name and the two series; no prediction is stored yet |
| `ChartGenerator.Trendline.MovingAverage` | ChartGenerator.py:265-269 | an empty y fails and stores nothing; otherwise y_pred is `WindowMean(y, 10)`: for at least 10 points it has length len(y) - 9 with element i = (y[i] + ... + y[i+9]) / 10; x_pred is the prefix of x of length len(y_pred), or all of x if shorter; the text names 10 points |
| `ChartGenerator.Trendline.Ols` | ChartGenerator.py:302-309 | an empty x or series of different lengths fail; data the regression rejects fail; both store nothing; otherwise stores the regression library's prediction |
| `ChartGenerator.Trendline.Poly` | ChartGenerator.py:271-299 | an empty x or series of different lengths fail in the first `polyfit`; otherwise, if the degree-5 fit's error is below infinity, stores the degree-5 fit; otherwise fails as `polyfit` does with a degree of None; every failure stores nothing |
| `ChartGenerator.Trendline.Dispatch` | ChartGenerator.py:256-263 | "ols", "poly" and "moving average", in any letter case, run their strategy and return what it stored; a strategy's failure propagates and leaves the stored prediction as it was; any other name returns the stored prediction if there is one, and otherwise fails |

## Left out

- Plotting: `lineplot`, the drawing part of `scatterplot`, `__setup__`, `__twinx__`, `__labels_etc__`, `__create_fig_ax__`, and the percent axis formatter that `__percentage__` sets (line 148). These are calls into the plotting library.
- `__unfold_args__`: it fills fields by reflecting over the caller's stack frame. `PlotGenerator` here holds only `x` and `y`, which the caller sets.
- `__remove_df__`: pandas column extraction. Its branch without a data frame (lines 204-212) sets `y = self.x`, so line 214 makes the y list the x array itself. Read as written, `__adjust_length__` would then take `len()` of a float at line 159 and raise. That path is not modelled: `PlotGenerator` here starts from x and a list of y series.
- The numeric fits. The linear regression, `polyfit`/`poly1d`/`linspace`, the mean squared error and R² are values of a `FitLibrary` parameter. So is the `reg_text` of ols and poly, which uses `:.2f` formatting.
- `Trendline.Ols`: the data of the right shape that `linregress` rejects are not spelled out. They are the inputs for which the library's `ols` result is `None`.
- `Trendline.Poly`: the library's fits are taken to succeed on a non-empty x with a y of the same length, and rank warnings are not modelled. Whether a fit's error is NaN or infinite is given by the library's `FitError`, not derived from the data.
- `Trendline.Poly`: the fitted coefficients (`self.poly`) are not stored.
- `Trendline.Ols`: the `print` of the regression summary (slope, intercept, R², p-value and standard error) is not modelled. It is console output only.
- `CalculateScenario`, `RunReport`: the key order of the result is not modelled, because Dafny maps are unordered. The source's dicts keep insertion order: "hz return", "100bp up", "50bp up", "50bp down", "100bp down", then the key figures. That order becomes the column order of the dashboard table.
- `extract_data_around_word`: PDF reading and regular-expression matching. `RunReport` takes the key figures as a parameter, so the `pdf_path` field is dropped.
- SumReportWebApp.py is not part of this model. It is a dashboard made of UI callbacks, directory listing and tables.
- Floating point: reals are exact, with no rounding. Series elements are numbers or NaN. Infinite series elements are not modelled.
- The fallback branch of `_retrieve_weight` and its `print`. The guarded block only assigns constants, so the branch cannot run. The integer weights 1 and 0 are modelled as the reals 1.0 and 0.0.
- `Lower`: lower-cases only A to Z, not the rest of Unicode. `ParseMethod` is still exact, because no other character lower-cases to a single letter of "ols", "poly" or "moving average".
- `SelectDegree` requires `max_degree >= 1`. With 0 the source fails on an unbound variable, and only the default 5 is ever used.
- Aliasing: the source rewrites the caller's list of y series in place. The model reassigns a `seq` field.

## Findings

| source | as written | input that shows it | evidently intended | confidence | as-written member | corrected member |
|---|---|---|---|---|---|---|
| ChartGenerator.py:280-285 | the error line and the comparison are outdented out of the degree loop. Only the last fit's error is compared against infinity | data every degree fits exactly: degree 5 is chosen, not 1; and when the degree-5 error is NaN, no degree is chosen and the final `polyfit` gets a degree of None | keep the first degree of least error | high; not executed | `ChartGenerator.SelectDegree` (shown by `ChartGenerator.DegreeSearchDiscrepancy` and `ChartGenerator.DegreeSearchUndefinedLast`) | `ChartGenerator.SelectBestDegree` |
| ChartGenerator.py:159-167 | `max_y_length` is computed with `min`, and when x is cut the y series are left as they are | x of length 3, y series of lengths 1 and 2: x becomes length 1 and the second y series keeps length 2 | x and all y series end with the same length | high; not executed | `ChartGenerator.Adjusted` (shown by `ChartGenerator.AdjustedLengthsDiffer`) | `ChartGenerator.Aligned` |

`Trendline.Poly` and `PlotGenerator.AdjustLength` keep the as-written behaviour, so the stateful model matches the code. The corrected definitions sit beside them, with their intended properties proved.

In exact arithmetic the as-written degree search still reports a least error. In-sample least-squares errors never rise with the degree, so the degree-5 error is a least one (`DegreeSearchOnNonIncreasingErrors`). The visible differences are two. Ties go to the highest degree rather than the simplest. And a NaN or infinite degree-5 error leaves no degree at all.

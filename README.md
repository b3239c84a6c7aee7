# Energy-price forecasting engine, modelled in Dafny

This project models the forecasting engine of a web application that predicts
the monthly regional energy price `Gm`. Given four spreadsheets of rows, the
engine works in these steps:

1. It joins the regional price history with the historical exogenous drivers
   (gas price, CPI, exchange rate, deficit, hydro share, thermal share, ENSO
   phase) on a `YYYY-MM` month key. It keeps months before November 2025.
2. It trains a ridge regression on standardised features. There is one model
   per ENSO phase with more than ten rows (alpha 5), plus a general model
   (alpha 3).
3. It projects V2 for every projected month from January 2026 on. V2 is 70% of
   the phase model's prediction plus 30% of the general model's, clipped to
   [180, 900].
4. It blends V2 with the user's previous forecast into a consensus. It pulls
   the 2027–2030 consensus toward its mean and smooths it with a centred
   three-month moving average.
5. It blends the consensus and the previous forecast into V3 and smooths that.
6. It puts a P10/P90 band around V3 and reports the mean of each column.

The model follows the source's own structure:

- **Imperative parts are methods proved against specification functions.**
  These are the `forEach` passes that build maps, push rows and overwrite
  columns, the `movingAverage3` loops, and the stateful `StandardScaler` and
  `RidgeRegression` classes. Each method's `ensures` ties its result, or the
  object's new fields, to a function of its inputs.
- **Pure parts are functions.** These are `formatMonthYear`, `transformRow`,
  `transform` and `normInv`.
- **Lemmas state the promises.** Examples: join membership and order,
  last-wins maps, the phase threshold, the clip bounds, mean preservation,
  smoothing bounds, the scaler centring its columns, and normInv's symmetry.

Modules, one per file:

| module | models |
|---|---|
| `Wrappers` | `Option` and `Result` |
| `Numeric` | sums, means, clip |
| `Calendar` | months and month keys |
| `Types` | the row and result records |
| `RowTransform` | `transformRow` |
| `Alignment` | the history join, the previous-forecast map and the projection filter |
| `Smoothing` | the moving average and the mean reversion |
| `MathUtils` | `StandardScaler`, `RidgeRegression` and `normInv` |
| `Training` | step 3 of `processFiles` |
| `Ensemble` | the column passes of steps 5–7 |
| `Processor` | projection, ensemble specification and `processFiles` itself |

Numbers are `real`. Dates are (year, month) pairs. The model cannot see three
operations, so they are parameters of the operations that use them:

- `Math.sqrt`: a function to non-negative reals.
- `Math.log`: a function on reals.
- The mathjs normal-equation solve: a function that returns the coefficients,
  or nothing where `inv` throws on a singular matrix.

## Model

| member | source | states |
|---|---|---|
| Numeric.Clip | services/processor.ts:200 | `Math.max(lo, Math.min(hi, x))` lies in [lo, hi], is x inside the range, and is the nearer bound outside it |
| Calendar.MonthKeyOrder | services/processor.ts:21-25 | for four-digit years, string order of two month keys is chronological order of the months, and two keys are equal exactly when the months are |
| Calendar.MonthKey | services/processor.ts:21-25 | a key is the year's decimal digits, a dash, and the tens and units digit of the month (zero-padded to two digits) |
| Calendar.January2026Key | services/processor.ts:134 | the bound `'2026-01'` of the previous-forecast filter is the key of January 2026 |
| RowTransform.ToLower | services/processor.ts:341-342 | lower-casing keeps the length and maps each character by itself (A–Z and Latin-1 capitals such as Ñ move down) |
| RowTransform.ContainsAt | services/processor.ts:341-342 | `includes` holds exactly when the text occurs at some position |
| RowTransform.ClassifyPhase | services/processor.ts:338-342 | La Niña exactly when the lower-cased label contains "niña"; El Niño exactly when it contains "niño" but not "niña"; Neutral exactly when it contains neither; a missing label reads as empty |
| RowTransform.MissingLabelIsNeutral | services/processor.ts:339-340 | a missing ENSO label gives Neutral |
| RowTransform.LaNinaExample | services/processor.ts:341 | "La Niña" classifies as La Niña |
| RowTransform.ElNinoExample | services/processor.ts:342 | "EL NIÑO" classifies as El Niño, because lower-casing takes Ñ to ñ |
| RowTransform.NoNinaInElNino | services/processor.ts:342 | "el niño" does not contain "niña" |
| RowTransform.BothPhasesExample | services/processor.ts:341-342 | a label naming both phases classifies as La Niña |
| RowTransform.TransformRowZeroFill | services/processor.ts:335-353 | an exogenous row with every field missing gives all-zero features and the Neutral phase |
| RowTransform.TransformRow | services/processor.ts:335-355 | the row keeps its date, its month key and its target; the six features are the exogenous values with a missing one read as 0, so a present feature keeps its value; thermal×gas is the product of both factors, and 0 when either is missing; the phase is the classification of the ENSO label; no forecast column is set yet |
| Alignment.IndexByKeys | services/processor.ts:55-61 | a key is in a map built with `Map.set` exactly when some row produced that key |
| Alignment.IndexByLastWins | services/processor.ts:55-61 | when several rows share a key, the map holds the value of the last of them |
| Alignment.BuildExogMap | services/processor.ts:55-61 | the `exogMap` loop builds the last-wins index of the exogenous rows by the key of their parsed `Fecha` |
| Alignment.ExogIndexLastWins | services/processor.ts:55-61 | a month no exogenous row has is missing from `exogMap`; otherwise its entry is the last row for that month |
| Alignment.AlignHistorical | services/processor.ts:63-75 | the regional loop pushes exactly the join of the regional rows with `exogMap` |
| Alignment.JoinedSound | services/processor.ts:63-75 | every history row lies before November 2025, has an exogenous row for its month, and is the transform of a regional row that joins |
| Alignment.JoinedComplete | services/processor.ts:63-75 | every regional row that has a date before the cutoff, a target and an exogenous row for its month is in the history |
| Alignment.JoinedConcat | services/processor.ts:63-75 | the join works row by row, so file order is kept |
| Alignment.JoinedEmpty | services/processor.ts:63-79 | the history is empty (the "no overlapping historical data" error) exactly when no regional row joins |
| Alignment.Joined | services/processor.ts:63-75 | the history has at most one row per regional row |
| Alignment.BuildForecastMap | services/processor.ts:122-137 | the `prevForecastMap` loop builds the last-wins index of the previous forecasts whose key is at least `'2026-01'` |
| Alignment.UserForecastLookup | services/processor.ts:122-159 | a month from January 2026 on that no previous-forecast row names gets 0; otherwise it gets the value of the last row naming it, or 0 where that value is missing |
| Alignment.EarlyForecastIgnored | services/processor.ts:133-136 | the key of a month before January 2026 is never in `prevForecastMap` |
| Alignment.ProjectedRowsExact | services/processor.ts:139-152 | every projection row kept is one whose `Mes_Año` or `Fecha` parses to a month from January 2026 on, and every such row is kept |
| Alignment.ProjectedRowsConcat | services/processor.ts:139-152 | the filter works row by row (the rows used from two concatenated files are those of the first followed by those of the second), so the used rows keep their file order and multiplicity |
| Smoothing.MovingAverage | services/processor.ts:358-372 | the smoothed series has the length of the input |
| Smoothing.SumWindow | services/processor.ts:363-368 | the inner loop adds up the window and counts its values |
| Smoothing.MovingAverage3 | services/processor.ts:358-372 | the nested loops give, at every position, the mean of the values from `max(0, i-1)` to `min(n-1, i+1)` |
| Smoothing.MovingAverageInterior | services/processor.ts:358-372 | inside the series a value becomes the mean of itself and its two neighbours |
| Smoothing.MovingAverageEnds | services/processor.ts:358-372 | the first and last values average two values; a one-value series is unchanged |
| Smoothing.MovingAverageConstant | services/processor.ts:358-372 | a constant series is returned unchanged |
| Smoothing.MovingAverageBounds | services/processor.ts:358-372 | smoothing never leaves a range that holds all the data |
| Smoothing.ReversionIndices | services/processor.ts:217-221 | `indicesSmooth` holds exactly the positions whose year is 2027–2030, in increasing order |
| Smoothing.RevertToMean | services/processor.ts:223-232 | mean reversion keeps the length |
| Smoothing.RevertToMeanPointwise | services/processor.ts:223-232 | values outside 2027–2030 are untouched; values inside keep 85% of their deviation from the window mean |
| Smoothing.RevertedSelection | services/processor.ts:227-231 | the reverted window values are `avg + 0.85·(value − avg)` of the originals |
| Smoothing.RevertPreservesWindowMean | services/processor.ts:223-232 | mean reversion leaves the mean of the 2027–2030 values unchanged |
| Smoothing.RevertConstant | services/processor.ts:223-232 | a constant series has nothing to revert |
| Smoothing.RevertBounds | services/processor.ts:223-232 | mean reversion never leaves a range that holds all the values |
| MathUtils.SumColumn | utils/mathUtils.ts:18-23 | the mean pass's inner loop gives the column sum when every row is present; otherwise it stops at the first missing row and reports that a row is missing |
| MathUtils.SquaresColumn | utils/mathUtils.ts:29-35 | the scale pass's inner loop gives the sum of squared deviations of the column |
| MathUtils.StandardScaler.constructor | utils/mathUtils.ts:5-6 | a new scaler has empty mean and scale |
| MathUtils.StandardScaler.Fit | utils/mathUtils.ts:8-38 | it does nothing on an empty matrix or a missing first row; a missing later row throws after mean and scale are zeroed; otherwise mean and scale have one entry per column of the first row, the column sum over the row count and the population standard deviation (1 where that is 0), never 0 |
| MathUtils.StandardScaler.ScaleAt | utils/mathUtils.ts:49 | the divisor `scale[j] \|\| 1` is never 0 |
| MathUtils.StandardScaler.Transform | utils/mathUtils.ts:40-53 | empty input gives `[]`; an unfitted scaler returns its input; otherwise every row keeps its length, a missing row becomes `[]`, and each cell becomes `(val − mean[j]) / scale[j]` with 0 and 1 for a missing mean or scale |
| MathUtils.ColumnScale | utils/mathUtils.ts:28-37 | the divisor of a column, its population standard deviation or 1 where that is 0, is positive |
| MathUtils.StandardRow | utils/mathUtils.ts:45-51 | a vector keeps its length and each entry becomes its deviation from the column mean over the column scale |
| MathUtils.Standardized | utils/mathUtils.ts:8-53 | the standardised matrix has one row per row of the matrix |
| MathUtils.FitTransformStandardizes | utils/mathUtils.ts:8-53 | transforming the rectangular matrix a scaler was fitted on gives the matrix's standardisation by its column means and population standard deviations |
| MathUtils.ConstantColumnStandardizesToZero | utils/mathUtils.ts:8-53 | a column that holds one value in every row becomes 0 in every transformed row |
| MathUtils.StandardizedPrefix | utils/mathUtils.ts:45-52 | dropping trailing rows keeps a column standardised around m by s |
| MathUtils.StandardizedColumnSum | utils/mathUtils.ts:45-52 | for a column standardised around m by s (every cell z with z·s = x − m), the column sum times s is the original column sum minus the row count times m |
| MathUtils.CenteredColumnSum | utils/mathUtils.ts:17-25 | a column standardised around its own mean by any nonzero scale sums to 0 |
| MathUtils.FitThenTransformCells | utils/mathUtils.ts:40-52 | after fitting, every transformed cell of column j times the column's scale is the cell's deviation from the column's mean |
| MathUtils.FitThenTransformCentres | utils/mathUtils.ts:3-53 | transforming the matrix a scaler was fitted on standardises every column around its mean by its scale, and each column then sums to 0 (mean 0) |
| MathUtils.StandardizedRowDeviation | utils/mathUtils.ts:28-35 | in a column standardised by s, each row's squared deviation from m is s² times the standardised cell's square |
| MathUtils.StandardizedScaledSquares | utils/mathUtils.ts:28-35 | a column standardised by s has, row by row, squared deviations scaled by s² |
| MathUtils.ScaledColumnSquares | utils/mathUtils.ts:28-35 | squared deviations scaled by c row by row give sums of squares scaled by c |
| MathUtils.StandardizedColumnSquares | utils/mathUtils.ts:28-52 | the sum of squares of a column standardised by s, times s², is the original column's sum of squared deviations from m |
| MathUtils.ExactScale | utils/mathUtils.ts:28-37 | where the column's variance v is nonzero and the square root is exact there, the fitted scale is sqrt(v) and its square times the row count is the column's sum of squares |
| MathUtils.StandardizedUnitVariance | utils/mathUtils.ts:28-52 | a column standardised around m by s that sums to 0 has mean 0, and population variance 1 when the original squared deviations add up to s² per row |
| MathUtils.FittedColumnUnitVariance | utils/mathUtils.ts:28-52 | a column standardised by its own mean and fitted scale, summing to 0, has mean 0 and population variance 1 wherever the column's variance is nonzero |
| MathUtils.FitThenTransformUnitVariance | utils/mathUtils.ts:3-53 | transforming the matrix a scaler was fitted on gives columns with mean 0 and population variance 1, wherever a column's variance is nonzero and the square root is exact at it |
| MathUtils.ConstantColumnSum | utils/mathUtils.ts:17-25 | a column holding one value c sums to the row count times c |
| MathUtils.ConstantRowsStandardizeToZero | utils/mathUtils.ts:8-53 | when every training row is the same vector, that vector standardises to all zeros |
| MathUtils.CenteredSumsToZero | utils/mathUtils.ts:76-77 | the centred targets sum to 0 |
| MathUtils.DotNoCoefficients | utils/mathUtils.ts:121-124 | with no coefficients every `coef` is 0, so the row adds nothing |
| MathUtils.DotZeroRow | utils/mathUtils.ts:121-124 | an all-zero row adds nothing |
| MathUtils.RidgeRegression.constructor | utils/mathUtils.ts:58-64 | a new model has no coefficients, intercept 0 and the given alpha |
| MathUtils.RidgeRegression.Fit | utils/mathUtils.ts:66-114 | it does nothing on an empty matrix, a missing first row or empty targets; otherwise it succeeds exactly when the solve does, and then the coefficients are the solve on the centred targets and the intercept is the mean target; a failed solve (the `inv` throw) changes nothing |
| MathUtils.RidgeRegression.Predict | utils/mathUtils.ts:116-127 | one prediction per row: the intercept plus the products of cells and coefficients, a missing coefficient as 0 and a missing row as the intercept |
| MathUtils.UnfittedPredictsZero | utils/mathUtils.ts:58-59 | a model that was never fitted predicts 0 for every row |
| MathUtils.ZeroRowPredictsIntercept | utils/mathUtils.ts:116-127 | an all-zero row predicts the intercept |
| MathUtils.HornerSix | utils/mathUtils.ts:146-152 | the coefficient-list evaluation is the source's nested six-coefficient expression |
| MathUtils.CentralDenominatorPositive | utils/mathUtils.ts:148-152 | the central branch's denominator is positive over the whole branch, so it never divides by 0 |
| MathUtils.TailDenominatorPositive | utils/mathUtils.ts:144-157 | the tail branches' denominator is at least 1 |
| MathUtils.CentralOdd | utils/mathUtils.ts:148-152 | the central rational function is odd in `q = p − 0.5` |
| MathUtils.NormInvSymmetry | utils/mathUtils.ts:132-158 | `normInv(1 − p) = −normInv(p)` for every p, across the three branches |
| MathUtils.NormInv | utils/mathUtils.ts:132-158 | `normInv(0.5) = 0` |
| MathUtils.NormInvDeciles | utils/mathUtils.ts:148-152 | `normInv(0.1)` lies in (−1.2816, −1.2815) and `normInv(0.9)` is its negation |
| Training.FeatureMatrix | services/processor.ts:83-85 | `X_all` has one present row of six features per history row |
| Training.Targets | services/processor.ts:86 | `y_all` has one target per history row |
| Training.PhaseRowsSound | services/processor.ts:94-97 | the rows picked for a phase are history rows in that phase |
| Training.PhaseRowsComplete | services/processor.ts:94-97 | every history row in a phase is picked for it |
| Training.PhaseRowsCount | services/processor.ts:89-94 | the three phases split the history between them |
| Training.FitModel | services/processor.ts:99-106 | scaler fit, transform and ridge fit succeed exactly when the solve on the standardised feature matrix and centred targets succeeds; then the scaler holds the column means and scales, the model has the given alpha, the solve's coefficients and the mean target as intercept |
| Training.TrainPhases | services/processor.ts:92-108 | the phase loop succeeds exactly when the solve of every phase with more than ten rows succeeds; then a phase has a pair exactly when it has more than ten rows, fitted on its rows with alpha 5 |
| Training.TrainModels | services/processor.ts:88-115 | training succeeds exactly when every solve does (each phase with more than ten rows at alpha 5, all rows at alpha 3), and otherwise fails with the singular-matrix error; after a success a phase has a model exactly when more than ten rows have that phase, fitted on those rows, and the general model is fitted on all rows |
| Training.PredictOne | services/processor.ts:168-174 | the guarded single-row prediction is the model's prediction for the scaled row |
| Training.PredictionAtTrainingCentre | utils/mathUtils.ts:110-113 | a pair trained on identical feature rows predicts the mean target for that vector: the intercept is the mean because the scaler centres the data |
| Ensemble.WithColumnFrame | services/processor.ts:212-248 | writing one column leaves every other column, the years and the dates as they were, and a second write of the column replaces the first |
| Ensemble.BlendBounds | services/processor.ts:212-214 | a convex blend of two columns stays in a range that holds both, and keeps a value where the columns agree |
| Ensemble.BlendInto | services/processor.ts:212-214 | the consensus-base pass writes the element-wise blend into its column and changes nothing else |
| Ensemble.CollectReversionIndices | services/processor.ts:217-221 | the loop collects the 2027–2030 positions |
| Ensemble.SumSelected | services/processor.ts:224 | the `reduce` adds up the consensus at those positions |
| Ensemble.PullTowardMean | services/processor.ts:227-231 | each listed row's consensus becomes `avg + 0.85·deviation`; every other row is untouched |
| Ensemble.PulledIsReverted | services/processor.ts:223-232 | pulling toward `sumSmooth / count` is the mean-reversion step on the consensus column |
| Ensemble.RevertConsensus | services/processor.ts:216-232 | the mean-reversion pass replaces the consensus column by its mean reversion and nothing else |
| Ensemble.SmoothColumn | services/processor.ts:234-238 | a smoothing pass replaces one column by its moving average and nothing else |
| Ensemble.LowerBand | services/processor.ts:258-271 | one P10 per row: the floored band value of that row, never below 150 |
| Ensemble.UpperBand | services/processor.ts:258-271 | one P90 per row: the capped band value of that row, never above 1500 |
| Ensemble.BandValues | services/processor.ts:259-270 | the interval body gives V3 plus z times the band width, floored at 150 for P10 and capped at 1500 for P90 |
| Ensemble.LowerValue | services/processor.ts:259-269 | P10 is at least 150 and at least V3 plus z10 times the band width |
| Ensemble.UpperValue | services/processor.ts:259-270 | P90 is at most 1500 and at most V3 plus z90 times the band width |
| Ensemble.ConfidenceBands | services/processor.ts:258-271 | the interval pass writes the P10 and P90 columns and changes nothing else |
| Ensemble.BandWidth | services/processor.ts:259-267 | with positive V3 and non-negative volatility the band width is not negative |
| Ensemble.BandBracketsV3 | services/processor.ts:269-270 | for V3 in [150, 1500], z10 ≤ 0 ≤ z90 and non-negative volatility, P10 ≤ V3 ≤ P90 |
| Ensemble.FloorAboveLowForecast | services/processor.ts:269 | where V3 is below 150, the floor puts P10 above V3 |
| Ensemble.MetricsPercentSign | services/processor.ts:273-288 | with a positive mean previous forecast, the percent difference is defined, and it is positive or zero exactly when mean V3 is above or equal to that mean |
| Ensemble.MetricsOf | services/processor.ts:273-288 | each reported mean times the row count is its column's sum; the percent difference is defined exactly when the mean previous forecast is not 0, and then times that mean it is 100 times the difference of the V3 and previous-forecast means |
| Processor.Prepared | services/processor.ts:139-159 | one prepared row per used projection row |
| Processor.PredictV2 | services/processor.ts:161-201 | the phase prediction (the general model for a phase without one) and the general prediction, blended 70/30 and clipped |
| Processor.V2Forecast | services/processor.ts:196-200 | V2 lies in [180, 900] and equals the 70/30 blend of the phase and general predictions whenever that blend lies there |
| Processor.ProjectOne | services/processor.ts:139-203 | one pass of the projection loop gives nothing for a skipped row, else the projected row |
| Processor.BuildProjection | services/processor.ts:139-204 | the projection loop builds the projection of the used rows |
| Processor.ProjectionRows | services/processor.ts:139-204 | the k-th projection row is the projection of the k-th used projection row |
| Processor.ProjectRowSpec | services/processor.ts:152-201 | a projected row keeps its month (from January 2026 on), has target 0 and the user's forecast for its month, and its V2 lies in [180, 900]; for a phase without a model, V2 is the clipped general prediction |
| Processor.ProjectionSplit | services/processor.ts:196-203 | the projection is the prepared rows plus a V2 column that lies in [180, 900] |
| Processor.ProjectionFilled | services/processor.ts:139-204 | every projection row has V2 and a previous forecast |
| Processor.Volatility | services/processor.ts:251-253 | with a positive mean target the historical volatility is not negative |
| Processor.ConsensusOf | services/processor.ts:212-238 | the consensus column has one value per row |
| Processor.V3Of | services/processor.ts:240-248 | the V3 column has one value per row |
| Processor.Blended | services/processor.ts:210-248 | steps 5 and 6 keep the number of rows |
| Processor.BlendedColumns | services/processor.ts:210-248 | after steps 5 and 6 the previous forecast, V2 and dates are unchanged, and the consensus and V3 are the columns that define them |
| Processor.EnsembleColumns | services/processor.ts:210-271 | the ensemble keeps the previous forecast, V2 and the dates, and fills the consensus, V3, P10 and P90 with their defining columns |
| Processor.ConsensusPass | services/processor.ts:210-238 | blend, mean reversion and smoothing write the consensus column |
| Processor.V3Pass | services/processor.ts:240-248 | blend and smoothing write the V3 column |
| Processor.RunEnsemble | services/processor.ts:210-271 | the passes of steps 5 to 7, in order, give the ensemble of the projection rows |
| Processor.EnsembleOf | services/processor.ts:210-271 | one ensemble row per projection row |
| Processor.EnsembleBandsClamped | services/processor.ts:258-271 | every ensemble row has P10 and P90, P10 at least 150 and P90 at most 1500 |
| Processor.EnsembleWithinInputRange | services/processor.ts:212-248 | when the previous forecasts and V2 lie in [lo, hi], so do the consensus and V3 |
| Processor.EnsembleConstant | services/processor.ts:212-248 | when the previous forecast and V2 are one constant, the consensus and V3 are that constant |
| Processor.BandsAroundColumn | services/processor.ts:258-271 | for V3 values in [150, 1500] every band brackets its V3 |
| Processor.BandColumnsBracket | services/processor.ts:212-271 | when the previous forecasts and V2 lie in [180, 900], every band brackets its V3 |
| Processor.EnsembleBandsBracket | services/processor.ts:210-271 | in the ensemble, P10 ≤ V3 ≤ P90 on every row under the same conditions |
| Processor.ForecastBandsBracket | services/processor.ts:250-271 | the same with the history's volatility (positive mean target) and the 10% and 90% quantiles the source uses |
| Processor.ProjectionForecasts | services/processor.ts:206-271 | when some projection row is used, the ensemble of the projection with the history's volatility and the 10% and 90% quantiles is a forecast of the run |
| Processor.ForecastRows | services/processor.ts:139-204 | in a forecast, row k holds the V2 the models give the k-th used projection row and the user's previous forecast for its month |
| Processor.EnsembleKeepsInputs | services/processor.ts:210-271 | the ensemble keeps every row's V2 and previous forecast |
| Processor.Forecast | services/processor.ts:117-289 | NoProjectionData exactly when no projection row is used; otherwise the forecast is the ensemble of the projection these models make, with the history's volatility and the 10% and 90% quantiles, every P10 is at least 150 and every P90 at most 1500, and the metrics are the forecast's metrics |
| Processor.ProcessFiles | services/processor.ts:34-290 | NoHistoricalOverlap exactly when no regional row joins; SingularMatrix exactly when rows join but some solve of training fails; NoProjectionData exactly when training succeeds but no projection row is dated January 2026 or later; success otherwise, holding the joined history, the forecast of the models trained on it (per-phase and general, as training leaves them) and that forecast's metrics |

## Left out

- Reading the spreadsheets (`readExcel`, services/processor.ts:294-324). It is FileReader and XLSX I/O. The four row sets are inputs of `ProcessFiles`, already split into typed fields.
- JavaScript `Date` parsing (`parseDate`, `new Date(Mes_Año + "-01")`). Excel serial dates, free-text parsing and the difference between UTC-midnight comparisons and local-time `getFullYear`/`getMonth` are left out. A parsed date is an optional (year, month), and comparisons with the first-of-month cutoffs are month comparisons.
- `getMonthYearFromStr` (services/processor.ts:27-30). Nothing calls it.
- `parsePercent` and `embalses` (services/processor.ts:328-334). The value is computed and never stored. The reservoir column is not part of the model.
- The mathjs coefficient solve (utils/mathUtils.ts:82-108). It is foreign code. It is a parameter that returns the coefficients, or nothing where `inv` throws.
- `Math.sqrt` and `Math.log`. They are parameters. Everywhere but the unit-variance lemmas, the only fact used is that `sqrt` is non-negative.
- MathUtils.FitThenTransformUnitVariance: requires that the variance v of the column is nonzero and that `sqrt(v) * sqrt(v) == v`. A real-valued parameter gives no exact root, and IEEE `Math.sqrt` rounds, so the source keeps variance 1 only up to rounding. A column with variance 0 gets scale 1 and stays all zeros.
- IEEE floating point. Rounding, overflow, NaN and Infinity are left out; numbers are reals. `|| 0` and `|| 1` are modelled on missing values only, not on NaN or a stored 0 (except where the source's own value is 0, as in `scale[j] || 1`).
- Processor.ProcessFiles: requires that the historical targets do not average to 0. The source divides by that mean in `volatilityHist` (services/processor.ts:253) without a guard and would carry Infinity or NaN into the bands.
- Ensemble.MetricsOf: the percent difference is None where the mean previous forecast is 0. The source divides by it (services/processor.ts:287) and reports Infinity or NaN.
- RowTransform.LowerChar: `toLowerCase` is modelled for A–Z and the Latin-1 capitals (enough for Ñ). Other Unicode case mappings are left out.
- Training.TrainModels: after a singular solve it returns only the error. The source throws, so models fitted before that point are discarded there too.
- The React components and the XLSX export. They are user interface, not engine logic.

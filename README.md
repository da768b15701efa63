# Heat-pump dashboard cards, modelled in Dafny

This project models the computing core of a set of Home Assistant
dashboard cards for heat pumps, together with the shared utilities they
use.

- **Insight card.** This card fits a heating model to daily energy and
  heating-degree-day (HDD) points. It works in four steps:
  - It builds per-day energy and temperature maps from recorder statistics.
  - It removes outliers with a Theil–Sen baseline and a MAD fence.
  - It fits either a line through the origin plus a measured hot-water
    base load (split mode) or ordinary least squares (fallback mode).
  - It derives the dimensioning metrics and the day-by-day detail view.
- **Heating-curve card.** This card computes the standard and Viessmann
  flow-temperature formulas and clamps them to the configured limits. It
  draws the 51-point curve and shows live trend arrows. It merges the
  recorded temperature statistics and the pump state changes into a
  playback history, and it has play, pause, scrub and period handlers.
- **Energy card.** This card computes per-bucket energy and heat sums,
  the COP per bucket, the period totals and the visibility toggles.
- **Temperature card.** This card computes per-bucket mean temperatures,
  the flow–return spread, the series averages and the current spread.
- **Shared code.**
  - The time-series processor: fixed-step buckets, aggregation and averages.
  - The config updater: dotted-path writes into a nested configuration.
  - `hexToRgb`.
  - Language selection of the translation tables.
  - The service calls of the number, select and switch controls.

Modelling conventions:

- All numbers are Dafny `real`, so there are no floating-point rounding
  errors and no NaN.
- JavaScript `Map`s whose insertion order matters are modelled as a key
  sequence plus a `map`.
- The wall clock, `toDateString` and `new Date(s).getTime()` are
  parameters. So are `parseFloat` and the statistics the recorder returns.
- Methods follow the source's loops and in-place updates. Each method is
  proved equal to a specification function, and the properties are proved
  about those functions.

## Model

| member | source | states |
|---|---|---|
| Stats.SortReals | src/insight/math.ts:57 | the sorted copy has the same length and the same multiset of values, and it is ascending |
| Stats.MedianBounds | src/insight/math.ts:55-62 | the median of a non-empty list lies between any lower and upper bound of its values |
| Stats.Median | src/insight/math.ts:55-62 | 0 for an empty list; for an odd size one of the values, for an even size the mean of two of them (MedianBounds and MedianOfConstant pin it further) |
| Stats.MedianOfConstant | src/insight/math.ts:55-62 | the median of a constant list is that constant |
| Stats.QuantileSorted | src/insight/math.ts:121-123 | the quartile of a sorted list lies between two of its elements |
| Stats.QuantileMonotone | src/insight/math.ts:121-123 | on a sorted list the quantile never decreases as p grows, from the first element at p = 0 to the last at p = 1 |
| Stats.QuartilesOrdered | src/insight/math.ts:121-124 | on a sorted list the first quartile never exceeds the third, so the interquartile range is never negative |
| LeastSquares.SseNonNegative | src/insight/processor.ts:77-80 | the squared error of any line is non-negative |
| LeastSquares.SseExpansion | src/insight/processor.ts:77-80 | the squared error of a line equals its expansion in the raw sums Σy², Σxy, Σy, Σx², Σx and n |
| LeastSquares.CrossNonNegative | src/insight/math.ts:162-166 | the centred sums n Σx² − (Σx)² and n Σy² − (Σy)² are non-negative |
| LeastSquares.CrossCauchySchwarz | src/insight/math.ts:162-166 | the centred sums satisfy Cauchy–Schwarz, CrossXY² ≤ CrossXX · CrossYY |
| LeastSquares.LineSums | src/insight/math.ts:162 | points on y = a x + c have raw sums in line form (Σy = a Σx + c n, and so on) |
| LeastSquares.CentroidLineMinimal | src/insight/math.ts:162 | a line through the centroid whose slope solves the normal equation m · CrossXX = CrossXY has a squared error no larger than that of any other line |
| InsightMath.BuildTheilSenModel | src/insight/math.ts:64-83 | the nested loops over all pairs produce the Theil–Sen line: the median slope of the pairs with dx ≥ 1e-9, then the median intercept; with no such pair, a flat line at the median y |
| InsightMath.PairSlopesOnLine | src/insight/math.ts:66-72 | on points that lie on a line, every collected pairwise slope is that line's slope |
| InsightMath.PairSlopesNonEmpty | src/insight/math.ts:66-74 | one pair whose x values differ by at least 1e-9 makes the slope list non-empty |
| InsightMath.TheilSenRecoversLine | src/insight/math.ts:64-83 | on points that lie exactly on a line with some x spread, Theil–Sen returns that line |
| InsightMath.TheilSen | src/insight/math.ts:64-83 | without a usable pair the line is flat (slope 0), at one of the y values for an odd count; with an odd number of usable pairs the slope is one of the pair slopes (TheilSenRecoversLine recovers an exact line) |
| InsightMath.Residuals | src/insight/math.ts:101 | one residual per point, y − (m x + b) |
| InsightMath.ScorePoints | src/insight/math.ts:107-141 | one score per input point, for that same point |
| InsightMath.Sigma | src/insight/math.ts:103-107 | the robust sigma is never negative, and it is either 0 (the MAD collapsed) or above 1.4826 · 1e-9 |
| InsightMath.Iqr | src/insight/math.ts:120-124 | the interquartile range of the sorted residuals is never negative |
| InsightMath.IqrDelta | src/insight/math.ts:120-125 | a positive fence factor gives a positive fence half-width around the residual median |
| InsightMath.FilterOutliers | src/insight/math.ts:92-152 | fewer than 7 points are returned untouched; at most max(1, ⌊0.2 n⌋) dates are removed, with no date twice; clean is the input without the removed dates; every removed date belongs to a point that is not yesterday |
| InsightMath.FilterOutliersByResidual | src/insight/math.ts:143-151 | the loop that builds the removed set in candidate order produces FilterOutliers |
| InsightMath.NewSet | src/insight/math.ts:144-149 | building the set of removed dates keeps each date once, in the order first taken, and the set holds exactly the listed dates |
| InsightMath.CandidateOrigin | src/insight/math.ts:116-118 | every removal candidate is an input point that is not yesterday |
| InsightMath.WithoutDates | src/insight/math.ts:148 | the kept points are exactly the input points whose date was not removed |
| InsightMath.FilterPartitionCount | src/insight/math.ts:143-151 | with distinct dates, the clean points and the removed dates together account for every input point |
| InsightMath.PartitionCount | src/insight/math.ts:144-148 | for points with distinct dates, removing a repeat-free list of dates that all occur drops exactly that many points |
| InsightMath.FilterKeepsExactLine | src/insight/math.ts:92-152 | seven or more points that lie exactly on a line, with some x spread, lose nothing |
| InsightMath.FilterKeepsYesterday | src/insight/math.ts:117-138 | a yesterday point whose date no other point shares is never removed and stays among the clean points |
| InsightMath.ZeroResidualsUnflagged | src/insight/math.ts:119-141 | points that lie exactly on the baseline are never flagged |
| InsightMath.Correlation2Bounds | src/insight/math.ts:163-166 | with non-degenerate centred sums the squared correlation lies in [0, 1] |
| InsightMath.Ols | src/insight/math.ts:158-168 | fewer than two points give (0, 0, 0); r² always lies in [0, 1] |
| InsightMath.OlsRecoversLine | src/insight/math.ts:158-168 | least squares returns the slope and intercept of a line the points fit exactly, and r² = 1 unless that line is flat |
| InsightMath.OlsAgreesWhereDefined | src/insight/math.ts:158-168 | wherever the written slope and intercept are defined, the corrected regression returns the same ones; it returns the same r² where that is defined and 0 where the written r² is NaN |
| InsightMath.OlsLeastSquares | src/insight/math.ts:161-162 | with at least two points and some spread in x, the returned (m, b) has a squared error no larger than that of any other line y = k x + c |
| InsightMath.LineFormSlope | src/insight/math.ts:162 | for points on a line, the slope CrossXY / CrossXX is the line's slope |
| InsightMath.LineFormIntercept | src/insight/math.ts:162 | for points on a line, the intercept Σy/n − m Σx/n is the line's intercept |
| InsightMath.LineFormCorrelation | src/insight/math.ts:163-166 | points on a non-flat line have squared correlation 1 |
| InsightMath.OlsAsWrittenNaN | src/insight/math.ts:158-168 | two points with equal x make the written regression undefined, while the corrected one returns slope 0 through the mean y; two points with equal y keep the written slope 0 and intercept ȳ but make its r² NaN, where the corrected one returns r² = 0 |
| InsightMath.ClipRegressionLine | src/insight/math.ts:174-180 | the line starts at x = 0 when b ≥ 0, else at the x-intercept when m ≠ 0; its first y is never negative and lies on the line whenever it is not clipped; it ends at (maxHDD, m·maxHDD + b) |
| InsightMath.AnnualHeatingProjection | src/insight/math.ts:186-188 | the projection is the slope times the 2800 standard annual HDD |
| InsightMath.WwBaseLoad | src/insight/math.ts:194-197 | the base load is non-negative, and positive exactly when some day has a positive value |
| InsightMath.WwBaseLoadBounds | src/insight/math.ts:194-197 | the base load lies between any bounds of the positive day values |
| InsightMath.WwBaseLoadIgnoresNonPositive | src/insight/math.ts:195 | a day with a non-positive value leaves the base load unchanged |
| InsightMath.AvgEfficiency | src/insight/math.ts:203-208 | with no heating day (x > 0) the efficiency is 0 |
| InsightMath.AvgEfficiencyOfProportional | src/insight/math.ts:203-208 | where heating-day energy is a · HDD, the efficiency is a |
| InsightMath.AvgEfficiencyIgnoresNonHeating | src/insight/math.ts:204 | a day with x ≤ 0 leaves the efficiency unchanged |
| InsightMath.AvgHeatingPower | src/insight/math.ts:214-219 | with no heating day the power is 0 |
| InsightMath.AvgHeatingPowerBounds | src/insight/math.ts:214-219 | the power lies between the bounds of the heating days' energies divided by 24 |
| InsightMath.Deviation | src/insight/math.ts:224-232 | 0 without a yesterday point; otherwise yesterday's energy equals the model's expectation plus the deviation |
| InsightMath.SumMapValues | src/insight/math.ts:238-244 | the day count is the number of values, and non-negative values give a non-negative total |
| InsightMath.AnnualElectricity | src/insight/math.ts:255-257 | with a positive day count the result times that count equals the period total times 365.25; otherwise it is the regression projection |
| InsightMath.ComputeDimensioning | src/insight/math.ts:250-275 | 24 × peak power = 25 m + b; the thermal loads are the electrical ones times COP or JAZ; with no positive area the three per-area indices are 0; otherwise energy index × area = annual electricity × JAZ, cost index × area = annual electricity × price, and specific heat load × area = 1000 × peak thermal load; JAZ, its source and the base load pass through |
| InsightProcessor.Put | src/insight/processor.ts:106 | `Map.set` gives the key the new value and keeps the key list valid |
| InsightProcessor.Remove | src/insight/processor.ts:237-238 | `Map.delete` removes exactly that key and keeps the key list valid |
| InsightProcessor.RemoveAll | src/insight/processor.ts:258-261 | deleting a list of keys removes exactly those keys and keeps every other value |
| InsightProcessor.ClampedChange | src/insight/processor.ts:104-105 | a sample's energy is its change when that is a non-negative number, and 0 otherwise |
| InsightProcessor.AddSamplesValue | src/insight/processor.ts:99-108 | each day's entry grows by exactly the clamped changes of that day's samples |
| InsightProcessor.AddSamplesKeys | src/insight/processor.ts:99-108 | new days are appended in order of their first sample, as `Map` insertion order does |
| InsightProcessor.AddSamplesValid | src/insight/processor.ts:99-108 | the forEach keeps every key listed exactly once |
| InsightProcessor.BuildEnergyMaps | src/insight/processor.ts:90-121 | the two forEach loops produce the three maps; a missing heating series leaves the heating map empty, and a missing hot-water series the hot-water map |
| InsightProcessor.TotalIsHeatingPlusWater | src/insight/processor.ts:99-118 | for every day, total = heating + hot water; each is that day's sum of clamped changes and is non-negative |
| InsightProcessor.SetMeansValue | src/insight/processor.ts:128-133 | the last numeric mean of a day wins, and days without one keep their earlier entry |
| InsightProcessor.BuildTempMap | src/insight/processor.ts:126-136 | the forEach produces the temperature map, which is empty when the sensor has no series |
| InsightProcessor.Hdd | src/insight/processor.ts:163 | HDD = max(0, heating limit − temperature) |
| InsightProcessor.DayPoint | src/insight/processor.ts:158-169 | a day yields a point exactly when it is not today, has a temperature, passes the zero-HDD exclusion, and is yesterday or not before the start; the point carries that day's HDD and energy, and its yesterday flag |
| InsightProcessor.RawPointsOf | src/insight/processor.ts:142-173 | every point is the point of one of its days, every day that yields a point is present, and distinct days give distinct dates |
| InsightProcessor.BuildRawPoints | src/insight/processor.ts:142-173 | the forEach over the regression source produces RawPointsOf |
| InsightProcessor.MetaOf | src/insight/processor.ts:192-197 | yesterday's efficiency times its HDD is its energy on a heating day, and 0 otherwise |
| InsightProcessor.NonYesterday | src/insight/processor.ts:198-200 | the plain points are exactly the points not flagged as yesterday |
| InsightProcessor.LastYesterday | src/insight/processor.ts:189-197 | the yesterday slot holds the last flagged point, and is empty exactly when no point is flagged |
| InsightProcessor.ExtractYesterday | src/insight/processor.ts:178-204 | the loop produces ExtractOf |
| InsightProcessor.ExtractPartition | src/insight/processor.ts:189-201 | every point goes either to the plain points or to the yesterday candidates |
| InsightProcessor.SingleYesterday | src/insight/processor.ts:178-204 | with one flagged point, that point and its summary fill the yesterday slots and the rest are the plain points |
| InsightProcessor.ThroughOriginSlope | src/insight/processor.ts:61-66 | with Σx² > 1e-9 the slope solves the normal equation m Σx² = Σxy; otherwise it is 0 |
| InsightProcessor.ThroughOriginLeastSquares | src/insight/processor.ts:61-66 | that slope has the least squared error among all lines through the origin |
| InsightProcessor.ThroughOriginRecoversProportional | src/insight/processor.ts:61-66 | energy exactly proportional to HDD gives back the proportionality factor |
| InsightProcessor.ModelR2 | src/insight/processor.ts:68-82 | R² ≤ 1; it is 0 for fewer than two points or a flat series |
| InsightProcessor.ModelR2OfExactFit | src/insight/processor.ts:68-82 | a line through every point has R² = 1 |
| InsightProcessor.DisplayPoints | src/insight/processor.ts:294-299 | each display point carries its day's total energy, and days without a total are skipped |
| InsightProcessor.MaxHdd | src/insight/processor.ts:321 | the result is at least 20 and every point's x, and it is 20 or one of those x values |
| InsightProcessor.InsightSeriesNull | src/insight/processor.ts:225-309 | null exactly when the temperature series is missing, both energy series are missing, fewer than two regression points remain, or split mode keeps fewer than two display points |
| InsightProcessor.ModelR2OfMean | src/insight/processor.ts:68-82 | the flat line through the mean y has R² = 0 |
| InsightProcessor.SplitModeModel | src/insight/processor.ts:289-310 | split mode takes the through-origin slope of the clean regression points and the hot-water base load (≥ 0) as intercept; it shows at least two points, each with a day's total energy; r² is the model R² |
| InsightProcessor.FallbackModel | src/insight/processor.ts:311-317 | fallback mode shows the regression points (at least two) with their least-squares line, r² in [0, 1], and the regression's yesterday summary |
| InsightProcessor.PeriodTotals | src/insight/processor.ts:235-326 | today and the outlier days are gone from the total and hot-water maps, the day count is the total map's size, and the period total is non-negative |
| InsightProcessor.InsightPartition | src/insight/processor.ts:245-255 | the clean points and the removed days add up to the raw points |
| InsightProcessor.RemoveOutlierDays | src/insight/processor.ts:258-261 | the for-of loop deletes every removed date from both maps |
| InsightProcessor.BuildDisplayPoints | src/insight/processor.ts:294-299 | the display loop produces DisplayPoints |
| InsightProcessor.ProcessInsightSeries | src/insight/processor.ts:212-335 | the pipeline, run step by step, gives the specification InsightSeries (whose null cases and modes the lemmas beside it characterise) |
| InsightCard.PeriodDays | src/insight/card.ts:95-99 | 30 for '30d', 365 for '365d', 90 for any other period |
| InsightCard.ResolveEnergy | src/insight/card.ts:101-127 | a heating sensor wins (split with a hot-water sensor, heating-only without one); otherwise a total sensor is the fallback; with neither there is nothing |
| InsightCard.ResolvedIds | src/insight/card.ts:101-127 | the fetched ids start with the non-empty heating id; there are two of them exactly in split mode, which is exactly when a hot-water id is set |
| InsightCard.HeatingLimit | src/insight/card.ts:307 | an unset or zero limit means 15 °C |
| InsightCard.FetchParams | src/insight/card.ts:302-311 | the pipeline receives the resolved ids and the heating limit, does not identify yesterday, and excludes zero-HDD days except in fallback-total mode |
| InsightCard.BaseLoad | src/insight/card.ts:318-319 | the hot-water base load when a dedicated series exists, else max(0, b) |
| InsightCard.BaseLoadOfSeries | src/insight/card.ts:318-319 | the displayed base load is never negative, and in split mode it is the model intercept |
| InsightCard.ToSortedDays | src/insight/card.ts:143-145 | the days are a permutation of the input, in ascending time order |
| InsightCard.FirstWithDate | src/insight/card.ts:154 | the first day with that date, or nothing exactly when no day has it |
| InsightCard.ResolveSelectedDay | src/insight/card.ts:147-167 | nothing only for no days; the latest day when nothing is requested; the requested day when present; otherwise the latest day not after it, or the earliest day when all are later |
| InsightCard.FallbackDay | src/insight/card.ts:157-166 | the scan returns the latest day not after the requested time, or the first day when every day is later |
| InsightCard.FallbackIsLatest | src/insight/card.ts:157-166 | in time order, the last day not after the requested time is the latest such day |
| InsightCard.Selected | src/insight/card.ts:240-250 | the selected day's expectation lies on the model line, and its deviation is the energy above it |
| InsightCard.IndexOfDate | src/insight/card.ts:216 | the first index of the date, or −1 exactly when no day has it |
| InsightCard.InsightCardState.constructor | src/insight/card.ts:33-35 | no data, no selected date, period '90d' |
| InsightCard.InsightCardState.SetPeriod | src/insight/card.ts:136-141 | the new period is stored, and the data and the selected date are left to the refetch |
| InsightCard.InsightCardState.SelectedDayIndex | src/insight/card.ts:214-217 | −1, or an index in range whose day is the selected day |
| InsightCard.InsightCardState.Navigate | src/insight/card.ts:229-251 | when the direction is allowed, it moves to the neighbouring day, recomputes the expectation and deviation, and shifts the index by one; otherwise nothing changes |
| InsightCard.InsightCardState.ApplySeries | src/insight/card.ts:313-365 | without a result there is no data; otherwise the sorted days, the base load and the metrics are stored, and the selected day is the one `_resolveSelectedDay` picks for the date remembered before the fetch (the latest day, the requested day, or the latest day not after it, else the earliest), explained by the model line; the remembered date becomes that day's date, or none when it is empty |
| InsightCard.DaysOf | src/insight/card.ts:322-328 | one day per dated point, with its date, HDD and energy |
| HeatingCurve.DampingPositive | src/heating-curve/card.ts:486 | the Viessmann damping term is positive for every outdoor temperature |
| HeatingCurve.CalculateTemp | src/heating-curve/card.ts:483-493 | a zero slope gives room setpoint plus shift with either formula (CurveAtRoomTemperature, CurveAboveBaseIffColder and StandardCurveFalls give its shape) |
| HeatingCurve.CurveAtRoomTemperature | src/heating-curve/card.ts:483-493 | at an outdoor temperature equal to the room setpoint both formulas give room + shift |
| HeatingCurve.CurveAboveBaseIffColder | src/heating-curve/card.ts:483-493 | with a positive slope, both formulas ask for more than room + shift exactly when it is colder outside than the room setpoint |
| HeatingCurve.StandardCurveFalls | src/heating-curve/card.ts:490-491 | with a non-negative slope, the standard curve never rises as the outdoor temperature rises |
| HeatingCurve.ClampToLimits | src/heating-curve/card.ts:495-499 | the result is the input or one of the limits, and a value above the maximum becomes the maximum |
| HeatingCurve.ClampWithinLimits | src/heating-curve/card.ts:495-499 | with consistent limits the result lies within them, and a value inside them passes through |
| HeatingCurve.ClampMonotone | src/heating-curve/card.ts:495-499 | with consistent limits, clamping never reverses the order of two temperatures |
| HeatingCurve.ClampMaxFirst | src/heating-curve/card.ts:496-497 | with crossed limits (max < min) a value above max becomes max, which is below min, because max is tested first |
| HeatingCurve.GenerateCurve | src/heating-curve/card.ts:235-244 | 51 points at outdoor temperatures −30 to 20, each the clamped curve value |
| HeatingCurve.StandardCurveSeqFalls | src/heating-curve/card.ts:239-244 | with a non-negative slope and consistent limits, the drawn standard curve never rises from left to right |
| HeatingCurve.FetchCurve | src/heating-curve/card.ts:218-259 | no data exactly when the slope or shift is unreadable; otherwise the 51-point curve around the room setpoint (20 by default), with the readings passed through |
| HeatingCurve.GetTrend | src/heating-curve/card.ts:1082-1087 | no trend without both readings; flat below 0.01 difference, up at or above +0.01, down at or below −0.01 |
| HeatingCurve.TrendAntisymmetric | src/heating-curve/card.ts:1082-1087 | swapping the two readings turns up into down and keeps flat |
| HeatingCurve.RoundToGrain | src/heating-curve/card.ts:361-362 | the aligned time is a whole multiple of the grain and lies within half a grain of the sample time |
| HeatingCurve.Advance | src/heating-curve/card.ts:329-337 | the cursor only moves forward, past changes that are not after t, and stops before a later change or at the end |
| HeatingCurve.PumpStateAt | src/heating-curve/card.ts:325-354 | no state without history, or when the change under the cursor is after t; otherwise the state of a change at or before t |
| HeatingCurve.PumpStateIsLatest | src/heating-curve/card.ts:325-354 | on a time-ordered history every change after the cursor is after t |
| HeatingCurve.PumpCursor.constructor | src/heating-curve/card.ts:319 | the cursor starts at the first change |
| HeatingCurve.PumpCursor.StateAt | src/heating-curve/card.ts:325-354 | the method updates the cursor as PumpStateAt says, and the cursor never moves back |
| HeatingCurve.AddStatFacts | src/heating-curve/card.ts:357-372 | one sample touches only its own aligned time and channel, and keeps the map well formed and its pump states sound |
| HeatingCurve.AddStatsFacts | src/heating-curve/card.ts:356-374 | after a series, the map has an entry for each aligned time with a mean, holding the last mean there |
| HeatingCurve.MergedMapFacts | src/heating-curve/card.ts:376-377 | the merged map has exactly the aligned times with an outdoor or flow mean, each holding the last mean of each series there, with sound pump states |
| HeatingCurve.AddToMap | src/heating-curve/card.ts:356-374 | the forEach with the shared cursor produces AddStats |
| HeatingCurve.BuildTimeMap | src/heating-curve/card.ts:375-376 | the two calls produce MergedMap |
| HeatingCurve.ForwardFillShape | src/heating-curve/card.ts:382-402 | nothing is emitted before both temperatures are known; after that, one point per time with the values last seen |
| HeatingCurve.CarriedPersists | src/heating-curve/card.ts:389-394 | once both temperatures are known they stay known |
| HeatingCurve.HistoryIncreasing | src/heating-curve/card.ts:380-402 | strictly increasing times give a strictly increasing history |
| HeatingCurve.SortedTimesFacts | src/heating-curve/card.ts:380 | the sorted times are exactly the map's times, strictly ascending |
| HeatingCurve.MergeHistory | src/heating-curve/card.ts:316-402 | the merge and forward fill produce HistoryOf |
| HeatingCurve.HistoryOrdered | src/heating-curve/card.ts:316-402 | the history has strictly increasing timestamps, each an aligned time with a recorded mean |
| HeatingCurve.NoPumpNoState | src/heating-curve/card.ts:367-370 | without a pump entity no history point has a pump state |
| HeatingCurve.MergeTrend | src/heating-curve/card.ts:435-472 | the live trend is the same merge on a 5-minute grid, with no pump states |
| HeatingCurve.Playback.constructor | src/heating-curve/card.ts:42-48 | not playing, live mode, index 0, period 24h, no history |
| HeatingCurve.Playback.TogglePlay | src/heating-curve/card.ts:531-547 | nothing happens without history; otherwise play toggles in history mode, restarting at 0 from the end |
| HeatingCurve.Playback.ExitHistoryMode | src/heating-curve/card.ts:656-663 | it stops and leaves history mode, with the index at the last point |
| HeatingCurve.Playback.Tick | src/heating-curve/card.ts:624-633 | the next point, or live mode at the last index after the end |
| HeatingCurve.Playback.Scrub | src/heating-curve/card.ts:643-653 | it jumps to the slider position and pauses in history mode |
| HeatingCurve.Playback.SetHistory | src/heating-curve/card.ts:404-408 | with data present, the new history replaces the old and the index is pulled back inside it |
| HeatingCurve.Playback.SetHistoryPeriod | src/heating-curve/card.ts:665-677 | the same period is a no-op; a new one stops playback, loads the fetched history and puts the index at its end |
| TimeSeries.Step | src/shared/utils/time-series-processor.ts:31-35 | 5 minutes for '5minute', a day for 'day', an hour otherwise |
| TimeSeries.FixedBuckets | src/shared/utils/time-series-processor.ts:38-67 | ⌈(end − start)/step⌉ buckets (none for an empty window), bucket i spanning [start + i·step, start + (i+1)·step) |
| TimeSeries.GenerateBuckets | src/shared/utils/time-series-processor.ts:21-67 | the loop for the 12h, day and month views produces FixedBuckets with the view's step |
| TimeSeries.BucketStartsBeforeEnd | src/shared/utils/time-series-processor.ts:39-42 | every bucket the loop reaches starts before the end, so the `break` never fires |
| TimeSeries.BucketsContiguous | src/shared/utils/time-series-processor.ts:54 | each bucket ends where the next begins |
| TimeSeries.BucketsDisjoint | src/shared/utils/time-series-processor.ts:114-117 | a time falls into at most one bucket |
| TimeSeries.HourlyBucketCounts | src/shared/utils/time-series-processor.ts:38-55 | a day has 24 hourly buckets and a 12-hour window 12, starting at the window's start |
| TimeSeries.InBucket | src/shared/utils/time-series-processor.ts:114-117 | exactly the statistics with start ≤ t < end |
| TimeSeries.BucketValue | src/shared/utils/time-series-processor.ts:113-130 | sum and change buckets always have a value, 0 when empty; a mean bucket is null exactly when none of its statistics has a mean |
| TimeSeries.Aggregate | src/shared/utils/time-series-processor.ts:106-132 | one value per bucket, all null without statistics |
| TimeSeries.SumNeverNull | src/shared/utils/time-series-processor.ts:119-121 | with statistics, a sum or change bucket always has a value, 0 when empty |
| TimeSeries.MeanNullIffNoMean | src/shared/utils/time-series-processor.ts:122-130 | a mean bucket is null exactly when none of its statistics has a mean |
| TimeSeries.MeanWithinBounds | src/shared/utils/time-series-processor.ts:122-130 | a mean bucket lies between any bounds of its means |
| TimeSeries.CalculateAverage | src/shared/utils/time-series-processor.ts:134-137 | null exactly when every value is null |
| TimeSeries.AverageWithinBounds | src/shared/utils/time-series-processor.ts:134-137 | the average lies between any bounds of the present values |
| EnergyCard.GetSeries | src/energy/card.ts:155-161 | an unconfigured sensor gives 0 per bucket; a configured one gives the bucket sums |
| EnergyCard.CopOf | src/energy/card.ts:163-171 | no COP exactly when energy ≤ 0.1; the COP is at most 10; below 10 it times the energy equals the heat; at 10 the heat is at least ten times the energy |
| EnergyCard.CopSeries | src/energy/card.ts:163-171 | one COP per bucket, from that bucket's total energy and heat |
| EnergyCard.CopPerBucket | src/energy/card.ts:163-171 | each bucket's COP comes from that bucket's summed energy and heat, is at most 10, and is null exactly when that energy is at most 0.1 |
| EnergyCard.ChartData | src/energy/card.ts:147-190 | the four series, the COP series, and the totals as sums of the series |
| EnergyCard.TotalsAreBucketSums | src/energy/card.ts:173-180 | the period totals are the sums over the buckets of the energy and heat each COP is computed from |
| EnergyCard.SumPointwise | src/energy/card.ts:173-180 | summing two series bucket by bucket equals adding their sums |
| EnergyCard.NoEnergySensorNoCop | src/energy/card.ts:155-171 | without an energy sensor no bucket has a COP and the energy total is 0 |
| EnergyCard.Flip | src/energy/card.ts:107-110 | exactly the toggled flag flips |
| EnergyCard.FlipTwice | src/energy/card.ts:107-108 | toggling the same series twice restores the visibility |
| EnergyCard.EnergyCardState.constructor | src/energy/card.ts:24-25 | no data; energy and heat visible, COP hidden |
| EnergyCard.EnergyCardState.Refresh | src/energy/card.ts:112-190 | no data without any sensor; otherwise the chart data over the view's buckets; visibility is unchanged |
| EnergyCard.EnergyCardState.ToggleSeries | src/energy/card.ts:107-110 | the visibility is flipped for that key, and the data is unchanged |
| TemperatureCard.MeanSeries | src/temperature/card.ts:161-164 | an unconfigured sensor gives gaps; a configured one gives the bucket means |
| TemperatureCard.Spread | src/temperature/card.ts:166-169 | a spread exactly where both flow and return have values, with return + spread = flow |
| TemperatureCard.ChartData | src/temperature/card.ts:151-185 | the four mean series, the spread and the five averages |
| TemperatureCard.SpreadWithinBounds | src/temperature/card.ts:166-182 | bounds on flow and return bound each spread and the average spread |
| TemperatureCard.NoSpreadWithoutBothSensors | src/temperature/card.ts:161-169 | without both a flow and a return sensor there is no spread in any bucket and no average spread |
| TemperatureCard.CurrentState | src/temperature/card.ts:280-281 | a value other than "-" is the configured sensor's non-empty state |
| TemperatureCard.CurrentSpread | src/temperature/card.ts:284-286 | a spread exactly when both sensors are configured and have states; it is the difference of the parsed states |
| TemperatureCard.TemperatureCardState.constructor | src/temperature/card.ts:25 | no data |
| TemperatureCard.TemperatureCardState.Refresh | src/temperature/card.ts:115-185 | no data without any sensor; otherwise the chart data over 5-minute (12h/day) or daily (month) buckets |
| ConfigUpdater.Segments | src/shared/utils/config-updater.ts:11 | no segment is empty or contains a dot |
| ConfigUpdater.SegmentsEmptyIffOnlyDots | src/shared/utils/config-updater.ts:11-12 | the path has no segments exactly when it consists of dots only |
| ConfigUpdater.SegmentsOfJoin | src/shared/utils/config-updater.ts:11 | splitting joined valid segments gives them back |
| ConfigUpdater.GetAfterSet | src/shared/utils/config-updater.ts:10-26 | after the write, reading the path gives the value |
| ConfigUpdater.OtherPathsUnchanged | src/shared/utils/config-updater.ts:10-26 | a path that branches off the written one reads the same as before |
| ConfigUpdater.IntermediatesBecomeRecords | src/shared/utils/config-updater.ts:15-22 | every intermediate of the path is an object containing the next key; a non-object intermediate is replaced by a fresh object holding only that key |
| ConfigUpdater.EmptyPathNoChange | src/shared/utils/config-updater.ts:12 | a path of dots only changes nothing |
| ConfigUpdater.SingleKeySetsRootKey | src/shared/utils/config-updater.ts:24-25 | a one-segment path sets that root key |
| ConfigUpdater.SetInKeys | src/shared/utils/config-updater.ts:14-25 | writing into an empty object creates exactly the first key of the path |
| ConfigUpdater.RecordAtSnoc | src/shared/utils/config-updater.ts:17-21 | descending one more key reaches that key's object, if it is one |
| ConfigUpdater.WriteThroughRecord | src/shared/utils/config-updater.ts:19-21 | writing an object at a key makes the cursor reach it |
| ConfigUpdater.PrepareKeepsUpdate | src/shared/utils/config-updater.ts:18-20 | replacing a non-object intermediate with {} does not change the final result |
| ConfigUpdater.LastWriteIsUpdate | src/shared/utils/config-updater.ts:24-25 | the leaf write at the cursor is the whole update |
| ConfigUpdater.ConfigRecord.constructor | src/shared/utils/config-updater.ts:10 | the record holds the given configuration |
| ConfigUpdater.ConfigRecord.SetValueAtPath | src/shared/utils/config-updater.ts:10-26 | the root becomes SetIn(old root, segments, value) |
| ConfigUpdater.ConfigRecord.CloneAndSet | src/shared/utils/config-updater.ts:28-32 | a fresh record holding the updated copy, with the original left unchanged |
| HexColor.Expand | src/shared/utils/helpers.ts:6-8 | three or six digits always become six |
| HexColor.Unpack | src/shared/utils/helpers.ts:10 | each component is a byte |
| HexColor.HexToRgb | src/shared/utils/helpers.ts:1-13 | a colour exactly for a present hex string that matches the pattern, with byte components |
| HexColor.ParseSix | src/shared/utils/helpers.ts:9 | six hex digits read as three bytes |
| HexColor.ComponentsAreBytes | src/shared/utils/helpers.ts:9-10 | red, green and blue are the bytes of digit pairs 1-2, 3-4 and 5-6 |
| HexColor.ShortFormDoubles | src/shared/utils/helpers.ts:6-8 | #abc is the colour #aabbcc |
| HexColor.CaseInsensitive | src/shared/utils/helpers.ts:4 | upper- and lower-case digits give the same colour |
| HexColor.ParseHexByValues | src/shared/utils/helpers.ts:9 | digit strings with the same digit values spell the same number |
| HexColor.ParseToHex | src/shared/utils/helpers.ts:1-13 | writing a colour as #rrggbb and parsing it gives the colour back |
| HexColor.DecimalRoundTrip | src/shared/utils/helpers.ts:10 | a number's decimal text reads back as the number |
| HexColor.HexToRgbText | src/shared/utils/helpers.ts:1-13 | text exactly for a valid colour, and that text is the colour's "r,g,b" |
| HexColor.RgbTextParts | src/shared/utils/helpers.ts:10 | the text is three digit runs split by two commas, each reading back as its component |
| Localization.NormalizeLanguage | src/shared/utils/localization.ts:789 | the lower-cased code up to the first '-' |
| Localization.GetTranslations | src/shared/utils/localization.ts:787-793 | German for 'de', English for everything else |
| Localization.T | src/shared/utils/localization.ts:801-803 | the German entry exactly for 'de', the English one otherwise |
| Localization.RegionIgnored | src/shared/utils/localization.ts:789 | a region suffix does not change the table |
| Localization.CaseIgnored | src/shared/utils/localization.ts:789 | letter case does not change the table |
| Localization.GermanOnlyForDe | src/shared/utils/localization.ts:787-793 | German is chosen exactly when the normalised code is 'de' |
| HassService.DomainOf | src/shared/components/number-control.ts:107 | the domain contains no dot and is no longer than the id |
| HassService.DomainOfEntity | src/shared/components/number-control.ts:107 | the domain of "domain.object" is domain |
| NumberControl.StepOf | src/shared/components/number-control.ts:94 | the step is never 0 (a missing or zero step is 1) |
| NumberControl.Precision | src/shared/components/number-control.ts:101 | at most the written decimals, and exactly them when the last digit is not 0 |
| NumberControl.RoundError | src/shared/components/number-control.ts:102 | rounding to p decimals moves the value by at most half a unit in the last place |
| NumberControl.RoundTo | src/shared/components/number-control.ts:101-102 | computes the nearest multiple of 10^−p; RoundError, RoundOnGrid and RoundKeepsGrid state its properties |
| NumberControl.RoundOnGrid | src/shared/components/number-control.ts:102 | the rounded value is an integer multiple of 10^−p |
| NumberControl.RoundKeepsGrid | src/shared/components/number-control.ts:102 | a value already on the grid is unchanged |
| NumberControl.Clamp | src/shared/components/number-control.ts:104-105 | the result is at most the maximum and at least a consistent minimum; values within both pass through |
| NumberControl.Stepped | src/shared/components/number-control.ts:98 | one step up or down |
| NumberControl.NewValue | src/shared/components/number-control.ts:93-105 | one step, rounded to the step's decimals, then clamped; NewValueBounds, HalfStepExample and ClampedExample state its properties |
| NumberControl.UpdateNumberEntity | src/shared/components/number-control.ts:85-125 | no call for an unknown entity; set_value for number and input_number; set_temperature for water_heater; no call for other domains |
| NumberControl.NewValueBounds | src/shared/components/number-control.ts:98-105 | with consistent limits the new value lies within them, and within half a unit in the last place of the target when the rounded target is inside them |
| NumberControl.HalfStepExample | src/shared/components/number-control.ts:98-105 | 30 stepped up by 0.5 within [20, 60] is 30.5 |
| NumberControl.ClampedExample | src/shared/components/number-control.ts:98-105 | 5 stepped up by 1 with maximum 5 stays 5 |
| SelectControl.UpdateSelectEntity | src/shared/components/select-control.ts:75-87 | a select_option call exactly for select and input_select entities |
| SelectControl.CurrentValue | src/shared/components/select-control.ts:58-59 | the override, else the entity's state, else empty |
| SelectControl.ShowsChosenOption | src/shared/components/select-control.ts:59-87 | once the call has taken effect, the control shows the chosen option |
| SelectControl.SelectDomains | src/shared/components/select-control.ts:80-83 | an id domain.object is accepted exactly when the domain is select or input_select, and the call goes to that domain |
| SwitchControl.ToggleBinaryEntity | src/shared/components/switch-control.ts:100-111 | a call exactly for a known entity, in its own domain; turn_off exactly when it is on, otherwise turn_on |
| SwitchControl.ToggleAlternates | src/shared/components/switch-control.ts:100-111 | once the first call has taken effect, the next toggle calls the other service |

## Left out

- Calendar bucket modes: the 'year' and 'total' views of `generateBuckets` depend on local calendar months and years. Bucket labels and `Intl` formatting are not modelled either. The card refresh methods cover the fixed-step views '12h', 'day' and 'month'.
- NaN, infinities and floating-point rounding: numbers are exact reals. `Number.isFinite` is modelled by an absent change.
- Request-id guards, `async`/`await`, `try`/`catch` and the WebSocket calls: fetched statistics and histories are inputs.
- Date handling: `toDateString`, `new Date(s).getTime()`, "today" and "yesterday" are parameters, as is `parseFloat`.
- `toFixed` formatting of displayed averages and of the current spread.
- Rendering, Chart.js, zoom, themes, local storage and editors.
- The temperature card's visibility toggle. It is the same spread-and-flip as the energy card's `_toggleSeries`, which is modelled.
- The water-heater card and the other context files: these are not part of this model.
- HeatingCurve.MergeHistory: the forward fill also writes the carried pump state back into the time map. Nothing reads the map afterwards, so the write-back is not modelled.
- HeatingCurve.Playback.Tick: it requires a running playback, because the interval only exists while playing. The timer itself is not modelled.
- HeatingCurve: the Viessmann curve's monotonicity is not proved. Only the standard curve's is, plus the behaviour of both curves at the room setpoint.
- Localization.GetTranslations: the tables are reduced to two keys per language. A lookup of a JavaScript prototype key such as "constructor" is not modelled. Lower-casing covers ASCII letters only.
- NumberControl.UpdateNumberEntity:
  - `parseFloat(x.toFixed(p))` is modelled as exact rounding to p decimals, half away from zero;
  - the step is a decimal (units, places), so steps written in exponent notation are not covered;
  - a `min` or `max` attribute that is `null` (rather than missing) is treated as missing.
- ConfigUpdater.SetIn: a path segment `__proto__` (or another prototype key) makes the source walk into `Object.prototype` instead of writing an own key. The model treats every segment as a plain key.
- ConfigUpdater.ConfigRecord: the configuration is a value that the method rebuilds along the path. Aliasing between nested objects is not modelled, and neither is `structuredClone` versus JSON cloning of non-JSON values.
- InsightProcessor.ProcessInsightSeries: `Math.max(...)` and the `filterStart` date are taken as exact reals. The statistics of `simple-statistics` (`mean`, `quantileSorted`, `linearRegression`, `sampleCorrelation`) are given by definitions of their own.
- InsightProcessor.FallbackModel: uses the intended regression of the Findings row (InsightMath.Ols). Where all x values are equal the source's fallback line is NaN, and the model shows slope 0 through the mean y instead. The same holds for ProcessInsightSeries.
- InsightMath.FilterOutliers: the candidate order is a stable insertion sort. The source's `Array.prototype.sort` is also stable, so ties keep the same order.

## Findings

| source | as written | input that shows it | evidently intended | confidence | as-written member | corrected member |
|---|---|---|---|---|---|---|
| src/insight/math.ts:158-168 | `computeRegression` hands two or more points to `linearRegression` and `sampleCorrelation` without checking for spread. Equal x values divide 0 by 0, giving NaN slope, intercept and r²; equal y values keep the slope 0 and intercept ȳ but give NaN r². | Fallback-total mode (zero-HDD days kept) over summer days that are all at or above the heating limit, e.g. the points (0, 1) and (0, 2) | A defined regression: slope 0 through the mean y with r² = 0 when x has no spread, and r² = 0 when y has none | not executed | InsightMath.OlsAsWrittenNaN | InsightMath.Ols |

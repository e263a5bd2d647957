# Project analytics of RemO-SaaS, modelled in Dafny

RemO-SaaS is a project-management application. Its only part with real
computational content is the analytics engine: from a snapshot of a
project's tasks and members and the current time, it computes a report.
The report holds:

- status counts, due-date buckets and a gap-free day-by-day activity series;
- per-member performance;
- a time-series bundle: trend lines, moving averages, z-score anomalies,
  weekly seasonality and a 7-day forecast;
- a list of rule-based insights;
- business metrics: cycle time, throughput, estimated completion, on-time
  delivery and a banded risk score.

The page then derives further figures from the report on the client, and
there are two diverging copies of that code. The task editor has a few list
and string helpers of its own.

The model lifts all of this out of the request handler and the React
components, as functions of `(tasks, members, timeRange, now)`.

- **Values and functions.** Reports, statistics and insights are
  datatypes. Each computation is a function. Properties are lemmas about
  those functions.
- **Methods.** Where the source works step by step, the model is a
  method proved equal to its specification function.
  - These have loops, as the source does:
    - the list of days;
    - the moving average;
    - the seasonality pass, which accumulates into an `array` in place, as
      the source does;
    - the cumulative series.
  - These follow the source's statements one by one, with no loop, as the
    source has none:
    - the insight list, a run of `push` calls;
    - the risk-score accumulator, a run of `+=` steps.
- **Numbers** are exact rationals.
  - A JavaScript division that can give NaN or Infinity yields an
    explicit `Undefined` (`Ratio`) or `None` (`Option`).
  - `Math.round` is `floor(x + 1/2)`.
- **Time** is an integer count of milliseconds. A day is 86 400 000 ms,
  with no time zones and no daylight saving. Weekdays count from Thursday
  1 January 1970.

Modules, in dependency order:

| module | file | what it models |
|---|---|---|
| `Numeric` | numeric.dfy | rounding, partial division, sums |
| `Sequences` | sequences.dfy | `filter`, counting with a filter, subsequences |
| `Snapshot` | snapshot.dfy | tasks, members, the time window, the calendar (start/end of day, weekday, end of week) |
| `TaskMetrics` | taskmetrics.dfy | status counts and due-date buckets |
| `Activity` | activity.dfy | the list of days, the per-day created/completed series, the backlog series |
| `Regression` | regression.dfy | least-squares trend lines and the forecast |
| `Anomalies` | anomalies.dfy | z-score anomaly detection |
| `MovingAverages` | movingaverage.dfy | the moving average |
| `Seasonality` | seasonality.dfy | weekly seasonality |
| `MemberPerformance` | members.dfy | per-member statistics |
| `Insights` | insights.dfy | the six insight rules |
| `Business` | business.dfy | cycle time, throughput, estimated completion, on-time delivery, risk |
| `Report` | report.dfy | the whole report |
| `LiveAnalytics` | liveanalytics.dfy | the client copy the analytics page uses (`analyticsCalculations.ts`) |
| `HelperAnalytics` | helperanalytics.dfy | the second client copy (`AnalyticsHelperFunctions.tsx`) |
| `TaskEditor` | taskeditor.dfy | the helpers of the task editor |

Both client copies produce the same cumulative series. It is modelled
once, by `LiveAnalytics.CumulativeActivity`, and the table below cites it
for both copies. Their health scores and trends differ, and each copy's
version is modelled separately.

## Model

| member | source | states |
|---|---|---|
| Snapshot.WindowDays | app/api/projects/analytics/route.ts:117-121 | the window is 7 days exactly for "7days", 30 exactly for "30days", and 14 otherwise, a missing parameter included |
| Snapshot.StartOfDay | app/api/projects/analytics/route.ts:180-181 | "today" is a midnight at or before `now` and less than a day before it |
| Snapshot.EndOfDay | app/api/projects/analytics/route.ts:183-184 | the end of today is the last millisecond before the next midnight |
| Snapshot.EndOfWeekIsNextSunday | app/api/projects/analytics/route.ts:186-187 | the end of the week is a midnight, falls on a Sunday, comes after the end of today and at most seven days after today |
| TaskMetrics.MetricsOf | app/api/projects/analytics/route.ts:171-177 | the total is the number of tasks, and completed + incomplete + (archived and not completed) = total, so completed + incomplete ≤ total |
| TaskMetrics.DueBucketsOf | app/api/projects/analytics/route.ts:189-209 | the five bucket counts add up to the number of tasks that are not completed |
| TaskMetrics.BucketOf | app/api/projects/analytics/route.ts:189-208 | definition: the one bucket an open task falls in by its due date, none for a completed task; `FiltersMatchBuckets` proves each filter selects exactly its bucket |
| TaskMetrics.FiltersMatchBuckets | app/api/projects/analytics/route.ts:189-208 | each of the five due-date filters holds exactly when the task's single classification (overdue < today, due today up to the end of today, this week up to the end of the week, later, no date) is that bucket, so no task is in two buckets |
| TaskMetrics.CompletedInNoBucket | app/api/projects/analytics/route.ts:189-208 | a completed task passes none of the five filters |
| Activity.DatesOf | app/api/projects/analytics/route.ts:211-218 | exactly `days` dates, the k-th being midnight of `days - 1 - k` days before today |
| Activity.BuildDates | app/api/projects/analytics/route.ts:211-218 | the loop counting down from `days - 1` pushes exactly `DatesOf(days, now)` |
| Activity.DatesAreConsecutive | app/api/projects/analytics/route.ts:211-218 | every date is a midnight, consecutive dates are one day apart, the last one is today |
| Activity.WindowStart | app/api/projects/analytics/route.ts:211-218 | the first day of the window is a midnight |
| Activity.Happened | app/api/projects/analytics/route.ts:228-237 | definition: the creation (or, for a completed task, the last update) falls in `[lo, hi)`; `AtMostOneBucket` and `HappenedSplit` prove how the intervals split the events |
| Activity.DayActivityOf | app/api/projects/analytics/route.ts:220-239 | definition: a day's record, counting creations and completions in `[date, date + 1 day)`; `CountsAt` proves what it counts |
| Activity.ActivityOf | app/api/projects/analytics/route.ts:220-239 | definition: one record per window date; `CountsAt`, `SeriesAreDayCounts` and `SeriesCoversWindow` prove what each record and the whole series count |
| Activity.Counts | app/api/projects/analytics/route.ts:280-281 | definition of `createdByDay` and `completedByDay`; `CountsAt` proves the k-th entry is the number of events on day k |
| Activity.CountsAt | app/api/projects/analytics/route.ts:228-237 | the k-th created (completed) count is the number of tasks created (completed and updated) on day k |
| Activity.AtMostOneBucket | app/api/projects/analytics/route.ts:228-237 | no task is counted on two different days of the series, for creations or completions |
| Activity.HappenedSplit | app/api/projects/analytics/route.ts:228-237 | counting events over two adjacent intervals adds up to counting over their union |
| Activity.DayCounts | app/api/projects/analytics/route.ts:220-239 | definition: the counts of consecutive days from a midnight; `SeriesAreDayCounts` ties them to the series and `PrefixCounts` sums them |
| Activity.SeriesAreDayCounts | app/api/projects/analytics/route.ts:220-239 | the series are the day counts from the window's first midnight |
| Activity.NextDayCount | app/api/projects/analytics/route.ts:220-239 | counting over k days and then over day k counts what one interval of k + 1 days counts |
| Activity.DayCountsAreSteps | app/api/projects/analytics/route.ts:220-239 | the count over 0 days is 0, and day j's bucket is the step from j to j + 1 days of counting |
| Activity.PrefixCounts | app/api/projects/analytics/route.ts:220-239 | the sum of the first k daily counts is the count over the first k days as one interval |
| Activity.SeriesCoversWindow | app/api/projects/analytics/route.ts:220-239 | the series sums to the number of events from the window's first midnight to the end of today |
| Activity.CompletionsAreCompletedTasks | app/api/projects/analytics/route.ts:232-237 | the completed series sums to at most the number of completed tasks |
| Activity.BacklogByDay | app/api/projects/analytics/route.ts:282-286 | one backlog value per day: the first is day 0's creations minus completions, and each next value adds that day's creations minus completions |
| Activity.BacklogIsNetWindowActivity | app/api/projects/analytics/route.ts:279-286 | the last backlog value is the tasks created in the window minus those completed in it |
| Regression.LinearRegression | app/api/projects/analytics/route.ts:7-28 | fewer than 2 points give slope, intercept and r2 all 0; otherwise the intercept is defined exactly when the slope is, and a defined r2 is non-negative |
| Regression.SpreadsNonnegative | app/api/projects/analytics/route.ts:19-21 | ssXX and ssYY are non-negative |
| Regression.SpreadPositive | app/api/projects/analytics/route.ts:20-23 | two distinct x values make ssXX positive, so the slope is defined |
| Regression.SumOfLine | app/api/projects/analytics/route.ts:13-14 | for points on `y = a + b x`, the sum of y is n·a plus b times the sum of x |
| Regression.MeanOfLine | app/api/projects/analytics/route.ts:13-16 | for points on a line the mean of y is the line at the mean of x: meanY = a + b·meanX |
| Regression.CrossSummandsOfLine | app/api/projects/analytics/route.ts:19-20 | for every point on a line, its ssXY term is b times its ssXX term |
| Regression.YSpreadSummandsOfLine | app/api/projects/analytics/route.ts:20-21 | for every point on a line, its ssYY term is b² times its ssXX term |
| Regression.CrossSumOfLine | app/api/projects/analytics/route.ts:19 | for points on `y = a + b x`, ssXY = b · ssXX |
| Regression.YSpreadSumOfLine | app/api/projects/analytics/route.ts:21 | for points on `y = a + b x`, ssYY = b² · ssXX |
| Regression.FitOfMoments | app/api/projects/analytics/route.ts:23-27 | from the means and sums of squares: the slope is defined exactly when ssXX ≠ 0, the intercept exactly when the slope is and then equals meanY - slope·meanX, and r2 is non-negative when both spreads are |
| Regression.MomentsOfLine | app/api/projects/analytics/route.ts:23-25 | with ssXX > 0, meanY on the line, ssXY = b·ssXX and ssYY = b²·ssXX, the fit is slope b, intercept a, and r2 = 1 (undefined, 0/0, when b = 0) |
| Regression.RatioOfSquares | app/api/projects/analytics/route.ts:25 | (b·s)² / (s · b²·s) is 1 for b ≠ 0 and s ≠ 0, and 0/0 for b = 0 |
| Regression.FitOfLine | app/api/projects/analytics/route.ts:7-28 | points on a line with two distinct x values give back slope b and intercept a, with r2 = 1, or undefined (0/0) for a flat line |
| Regression.IndexPoints | app/api/projects/analytics/route.ts:292-294 | definition: value k paired with x = k; `IndexFitDefined` proves its regression always has a slope and an intercept |
| Regression.IndexRegression | app/api/projects/analytics/route.ts:292-294 | definition: the regression of a series against its indices; `IndexFitDefined`, `LinearSeriesFit` and `ConstantSeriesFit` prove its fits |
| Regression.IndexFitDefined | app/api/projects/analytics/route.ts:292-294 | on index points, slope and intercept are always defined |
| Regression.Trend | app/api/projects/analytics/route.ts:331 | the trend of a series is the defined slope of its index regression |
| Regression.Intercept | app/api/projects/analytics/route.ts:24 | the intercept of a series is the defined intercept of its index regression |
| Regression.LinearSeriesFit | app/api/projects/analytics/route.ts:7-28 | a series `a + b·i` of length ≥ 2 has trend b and intercept a |
| Regression.ConstantSeriesFit | app/api/projects/analytics/route.ts:7-28 | a constant series has trend 0, its constant as intercept, and undefined r2 |
| Numeric.RealMax | app/api/projects/analytics/route.ts:54 | `Math.max` of two numbers: at least both, and one of them |
| Regression.LineValue | app/api/projects/analytics/route.ts:52-55 | the forecast value at x is non-negative, and equals round1(slope·x + intercept) whenever that line value is non-negative |
| Regression.Forecast | app/api/projects/analytics/route.ts:44-56 | exactly `periods` entries; all null below 10 data points, otherwise the clamped, rounded line value at n + i |
| Regression.ForecastExtendsLine | app/api/projects/analytics/route.ts:44-56 | for a linear series the forecast is `max(0, round1(a + b·(n + i)))` |
| Anomalies.Mean | app/api/projects/analytics/route.ts:34 | definition: the sum over the length; `ZSquaredSum` and `Variance` rely on it |
| Anomalies.Variance | app/api/projects/analytics/route.ts:34-36 | the variance is non-negative |
| Anomalies.Score | app/api/projects/analytics/route.ts:36-40 | the record of value i holds `data[i]` and i; it is flagged exactly when the variance is positive and `(v - mean)² > t²·variance` (or t < 0), i.e. `|z| > t`; its squared z-score is a number exactly when the variance is positive, and then it is non-negative and times the variance gives `(v - mean)²` |
| Anomalies.Scores | app/api/projects/analytics/route.ts:38-40 | definition: one record per value, in order; `DetectAnomalies` and `DetectAnomaliesOrdered` prove which records are returned and in what order |
| Anomalies.DetectAnomalies | app/api/projects/analytics/route.ts:30-42 | [] below 3 values; every returned record is flagged, in range and is the record of its index; every flagged record is returned |
| Anomalies.DetectAnomaliesOrdered | app/api/projects/analytics/route.ts:38-41 | the returned indices strictly increase |
| Anomalies.NoSpreadNoAnomalies | app/api/projects/analytics/route.ts:36-41 | a zero-variance series has no anomalies |
| Anomalies.ZSquaredAsScaled | app/api/projects/analytics/route.ts:34-39 | the squared z-scores sum to the scaled squared deviations |
| Anomalies.ScaledSum | app/api/projects/analytics/route.ts:34-36 | summing scaled squared deviations divides their sum by the variance |
| Anomalies.ZSquaredSum | app/api/projects/analytics/route.ts:34-39 | the squared z-scores of a series sum to its length |
| Anomalies.ScoresNonnegative | app/api/projects/analytics/route.ts:39 | every squared z-score is non-negative |
| Anomalies.FlaggedAbove | app/api/projects/analytics/route.ts:40-41 | every returned record has squared z-score above t² |
| Anomalies.AnomalySumAbove | app/api/projects/analytics/route.ts:40-41 | the returned squared z-scores sum to more than (count · t²) |
| Anomalies.AnomalySumAtMost | app/api/projects/analytics/route.ts:34-41 | the returned squared z-scores sum to at most n |
| Anomalies.AnomaliesAreFew | app/api/projects/analytics/route.ts:30-42 | for t ≥ 1, fewer than n / t² values are flagged |
| Anomalies.SpikeAtTwoDeviations | app/api/projects/analytics/route.ts:30-42 | `[1, 1, 1, 1, 100]` has z = 2 exactly at the spike, not above 2, so nothing is flagged |
| Anomalies.SpikeAtThreeDeviations | app/api/projects/analytics/route.ts:30-42 | nine zeros and a 10: the 10 is flagged with squared z-score 9 |
| MovingAverages.WindowAverage | app/api/projects/analytics/route.ts:63-65 | a window's average is defined exactly when the window is non-empty |
| MovingAverages.MovingAverageOf | app/api/projects/analytics/route.ts:58-69 | [] when n < window; otherwise exactly n - window + 1 values, value i being the rounded mean of `data[i..i+window)` |
| MovingAverages.MovingAverage | app/api/projects/analytics/route.ts:58-69 | the loop returns exactly `MovingAverageOf(data, window)` |
| MovingAverages.WindowSlides | app/api/projects/analytics/route.ts:62-64 | the next window's sum drops the first value and adds the next one |
| MovingAverages.MovingAverageBounded | app/api/projects/analytics/route.ts:58-69 | averages of values in [lo, hi] lie in [round1(lo), round1(hi)] |
| MovingAverages.MovingAverageOfConstant | app/api/projects/analytics/route.ts:58-69 | a constant series averages to its rounded constant |
| MovingAverages.RouteWindow | app/api/projects/analytics/route.ts:299-300 | the window is 7 or floor(n/2), whichever is smaller |
| MovingAverages.RouteWindowAverages | app/api/projects/analytics/route.ts:299-300 | with the route's window, a series of ≥ 2 days gets more than n/2 averages, all defined |
| Seasonality.PeriodIndex | app/api/projects/analytics/route.ts:76-77 | position k of whole period j lies inside the data |
| Seasonality.AveragePattern | app/api/projects/analytics/route.ts:81-86 | the pattern has one entry per position of the period |
| Seasonality.Divisor | app/api/projects/analytics/route.ts:92 | a zero average divides as 1, so the divisor is never 0 |
| Seasonality.DeviationSum | app/api/projects/analytics/route.ts:89-94 | the summed deviations are non-negative |
| Seasonality.Strength | app/api/projects/analytics/route.ts:96 | the strength is at most 1 (it is not bounded below) |
| Seasonality.SeasonalityOf | app/api/projects/analytics/route.ts:71-103 | below two periods: no seasonality, no strength, empty pattern; otherwise `period` pattern entries, strength ≤ 1, and seasonality exactly when strength > 0.7 |
| Seasonality.CalculateSeasonality | app/api/projects/analytics/route.ts:71-103 | the three loops return exactly `SeasonalityOf(data, period)` |
| Seasonality.CollectPeriods | app/api/projects/analytics/route.ts:75-78 | floor(n/period) slices of `period` values, slice j position k being `data[j·period + k]` |
| Seasonality.AccumulatePattern | app/api/projects/analytics/route.ts:81-86 | the in-place accumulation leaves the array holding `AveragePattern(data, period)` |
| Seasonality.SumDeviations | app/api/projects/analytics/route.ts:89-94 | the strength loop sums the deviations of the first min(n, 3·period) values |
| Seasonality.ColumnShareIsMean | app/api/projects/analytics/route.ts:81-86 | adding value/m per period gives the column sum divided by m |
| Seasonality.PatternIsColumnMean | app/api/projects/analytics/route.ts:81-101 | pattern entry k is round1 of the mean of `data[j·period + k]` over the whole periods |
| Seasonality.SeasonalMeansCloseToPattern | app/api/projects/analytics/route.ts:89-99 | a seasonal series has summed deviations below 0.3 · 3·period |
| Seasonality.PeriodicSeriesIsSeasonal | app/api/projects/analytics/route.ts:71-103 | a series repeating non-zero values with the period is seasonal with strength 1 and its first period as pattern |
| Seasonality.PeriodicColumnMean | app/api/projects/analytics/route.ts:81-86 | for a periodic series, the average at position k is `data[k]` |
| Seasonality.PeriodicColumn | app/api/projects/analytics/route.ts:81-86 | for a periodic series, column k sums to `data[k]` times the number of periods |
| Seasonality.PeriodicDeviations | app/api/projects/analytics/route.ts:89-94 | a periodic series deviates by 0 from its own pattern |
| Seasonality.SilentSeriesIsNotSeasonal | app/api/projects/analytics/route.ts:71-103 | an all-zero series is not seasonal; its strength is `1 - min(n, 3·period)/(3·period)` |
| Seasonality.SilentDeviations | app/api/projects/analytics/route.ts:89-94 | every zero value deviates by exactly 1 |
| MemberPerformance.AverageCompletionTime | app/api/projects/analytics/route.ts:251-262 | the average is null exactly when the member has no completed task |
| MemberPerformance.StatsOf | app/api/projects/analytics/route.ts:242-276 | a member's record carries the member's userId and name and is consistent: completed ≤ assigned, overdue ≤ assigned - completed, and the average is null exactly when nothing is completed |
| MemberPerformance.AllStats | app/api/projects/analytics/route.ts:242-276 | definition: every member's record, in member order; `MemberPerformanceOf` proves which of them are reported |
| MemberPerformance.MemberPerformanceOf | app/api/projects/analytics/route.ts:241-277 | the records are a subsequence of all members' records, so at most one per member and in member order; every record has tasks and is consistent; every member with tasks keeps its record |
| MemberPerformance.KeptStats | app/api/projects/analytics/route.ts:241-277 | the records the filter keeps have tasks and are consistent, and every member with tasks has its record kept |
| MemberPerformance.AverageCompletionTimeNonnegative | app/api/projects/analytics/route.ts:254-262 | when tasks are never updated before they are created, the average is non-negative |
| Insights.KindOf | app/api/projects/analytics/route.ts:327-437 | definition: the `type` each rule gives its insight, "insight" for the weekly pattern; `VelocityInsightIff` proves the velocity insight is positive exactly for a rising slope |
| Insights.FirstMaxIndex | app/api/projects/analytics/route.ts:418 | the position holds the largest value, and no earlier position holds it |
| Insights.FirstMinIndex | app/api/projects/analytics/route.ts:420 | the position holds the smallest value, and no earlier position holds it |
| Insights.Assigned | app/api/projects/analytics/route.ts:380 | definition: the reported members' task counts; `WorkloadInsightNamesExtremes` proves the rule names the extremes of these counts |
| Insights.OrOne | app/api/projects/analytics/route.ts:383 | the divisor is positive |
| Insights.VelocityInsights | app/api/projects/analytics/route.ts:330-346 | definition; `VelocityInsightIff` proves when it fires and with which sign |
| Insights.BacklogInsights | app/api/projects/analytics/route.ts:348-364 | definition; `BacklogInsightIff` proves when it fires and which way |
| Insights.OverdueInsights | app/api/projects/analytics/route.ts:366-376 | definition; `OverdueInsightIff` proves it fires exactly above a fifth overdue, with a percentage in [20, 100] |
| Insights.WorkloadInsights | app/api/projects/analytics/route.ts:378-396 | definition; `WorkloadInsightIff` and `WorkloadInsightNamesExtremes` prove when it fires and whom it names |
| Insights.AnomalyInsights | app/api/projects/analytics/route.ts:398-412 | definition; `AnomalyInsightReportsLatest` proves it reports the latest anomaly of the last seven days |
| Insights.PatternInsights | app/api/projects/analytics/route.ts:414-437 | definition, naming positions as the code does; `PatternInsightNamesExtremes` and `PatternConfidenceRange` prove what it names and reports |
| Insights.InsightsOf | app/api/projects/analytics/route.ts:327-437 | definition: the six rules' outcomes in rule order; `AtMostSixInsights` and `QuietSignals` prove how many there are |
| Insights.BuildInsights | app/api/projects/analytics/route.ts:327-437 | the sequence of conditional pushes, the weekly-pattern names taken from the current week's Sunday as the code does, yields exactly `InsightsOf(signals)` |
| Insights.AtMostSixInsights | app/api/projects/analytics/route.ts:327-437 | there are at most six insights |
| Insights.QuietSignals | app/api/projects/analytics/route.ts:327-437 | flat trends, nothing overdue, at most one member, no anomaly and no weekly pattern raise no insight |
| Insights.VelocityInsightIff | app/api/projects/analytics/route.ts:330-346 | a velocity insight exists exactly when the completion slope is above 0.1 or below -0.1, and it is positive exactly for a rising slope |
| Insights.BacklogInsightIff | app/api/projects/analytics/route.ts:348-364 | a backlog insight exists exactly when the backlog slope is above 0.2 or below -0.1, and it reports growth exactly for a rising slope |
| Insights.OverdueInsightIff | app/api/projects/analytics/route.ts:366-376 | the overdue insight fires exactly when more than a fifth of all tasks are overdue; its percentage is in [20, 100] |
| Insights.DisparityTest | app/api/projects/analytics/route.ts:383-385 | the ratio test `> 3` is the integer test most > 3 · (fewest, or 1 if 0) |
| Insights.WorkloadInsightIff | app/api/projects/analytics/route.ts:378-396 | the workload insight fires exactly when there are at least two members and one has over three times the tasks of another (0 counted as 1) |
| Insights.WorkloadInsightNamesExtremes | app/api/projects/analytics/route.ts:378-396 | it names the first member with the most tasks and the first with the fewest, every count lies between theirs, and the disparity is at least 3 |
| Insights.AnomalyInsightReportsLatest | app/api/projects/analytics/route.ts:398-412 | at most one anomaly insight; it reports the last anomaly, only if it lies in the window's last seven days, with its date and value; a spike exactly for a positive value |
| Insights.FirstExtremes | app/api/projects/analytics/route.ts:418-420 | definition of the positions `indexOf(Math.max(...))` and `indexOf(Math.min(...))` return; `FirstMaxIndex` and `FirstMinIndex` meet it |
| Insights.PatternInsightNamesExtremes | app/api/projects/analytics/route.ts:414-437 | a pattern insight exists exactly for a seasonal result; it names the first largest pattern position k and the first smallest one j (the positions `indexOf` returns) as `dayNames[k mod 7]` and `dayNames[j mod 7]` |
| Insights.PatternConfidenceRange | app/api/projects/analytics/route.ts:414-437 | for a seasonal weekly series the confidence is between 70 and 100 |
| Insights.PatternWeekday | app/api/projects/analytics/route.ts:414-428 | the weekday of the window day that pattern position k starts from, in 0-6 |
| Insights.PatternWeekdayIsShared | app/api/projects/analytics/route.ts:414-428 | every window day i with i ≡ k (mod 7) falls on the weekday given to pattern position k |
| Insights.WeekdayNameAsWritten | app/api/projects/analytics/route.ts:422-428 | as written, pattern position k is named `dayNames[k mod 7]` whatever the current day |
| Insights.SundayIsStartOfWeek | app/api/projects/analytics/route.ts:424-425 | today minus its weekday is a Sunday |
| Insights.WeekdayNameAsWrittenMislabels | app/api/projects/analytics/route.ts:422-428 | on 1 January 1970, 14-day window: position 0 averages Fridays but is named Sunday |
| Insights.CorrectedPatternInsights | app/api/projects/analytics/route.ts:414-437 | definition of the weekly-pattern rule with each position named after the weekday of the window days it averages; `CorrectedPatternInsightNamesExtremes` proves it |
| Insights.CorrectedPatternInsightNamesExtremes | app/api/projects/analytics/route.ts:414-437 | the corrected insight exists exactly for a seasonal result, and names the weekday shared by every window day i ≡ peak (mod 7), and likewise for the dip, for the first largest and the first smallest position |
| Insights.PatternInsightsDisagree | app/api/projects/analytics/route.ts:414-437 | on 1 January 1970 with a 14-day window and the pattern peaking at position 0, the code's insight says Sunday and the corrected one Friday |
| Business.CycleTime | app/api/projects/analytics/route.ts:441-453 | the cycle time is null exactly when no task is completed |
| Business.CycleTimeNonnegative | app/api/projects/analytics/route.ts:441-453 | when tasks are never updated before they are created, the cycle time is non-negative |
| Business.Throughput | app/api/projects/analytics/route.ts:455-459 | definition: completions over the window's days, to one decimal; `ThroughputBounded` proves its range |
| Business.ThroughputBounded | app/api/projects/analytics/route.ts:455-459 | with daily counts in [0, hi], the throughput lies in [0, hi] |
| Business.LastFortnight | app/api/projects/analytics/route.ts:466 | the last min(14, n) values: a suffix of the series of that length |
| Business.CompletionRate | app/api/projects/analytics/route.ts:466 | definition: the last 14 days' completions over 14; `RecentRateSign` proves when it is positive |
| Business.EstimatedCompletion | app/api/projects/analytics/route.ts:461-477 | definition; `EstimateIsFewestDays` proves when an estimate exists and what it says |
| Business.EstimateIsFewestDays | app/api/projects/analytics/route.ts:461-477 | an estimate exists exactly when tasks are open and the last 14 days completed some; its day count is the fewest days at the average rate (over 14 days) that clear the open tasks, and its date is that many days after today |
| Business.RecentRateSign | app/api/projects/analytics/route.ts:466-467 | over non-negative daily counts the 14-day rate is positive exactly when the last 14 days completed something |
| Business.FewestDays | app/api/projects/analytics/route.ts:469 | for positive work and rate, ceil(work / rate) is at least 1, covers the work, and one day fewer does not |
| Business.OnTimeDelivery | app/api/projects/analytics/route.ts:479-492 | definition; `OnTimeDeliveryIsPercentage` proves it is null or a percentage, with its extremes |
| Business.OnTimeDeliveryIsPercentage | app/api/projects/analytics/route.ts:479-492 | null exactly when no completed task has a due date; otherwise a percentage, 100 when all such tasks were on time and 0 when none were |
| Business.FactorsOf | app/api/projects/analytics/route.ts:499-521 | definition: the overdue share of all tasks, the two slopes and the completion share, as percentages; `RiskScoreMonotone` proves how the score moves with them |
| Business.RiskScore | app/api/projects/analytics/route.ts:494-521 | definition: the sum of the four factor bands; `RiskScoreBounds` proves the bands and the range |
| Business.LevelOf | app/api/projects/analytics/route.ts:523-528 | definition; `RiskScoreBounds` proves the level bands |
| Business.AssessRisk | app/api/projects/analytics/route.ts:494-530 | the accumulator returns the score `RiskScore(f)` and its level |
| Business.RiskScoreBounds | app/api/projects/analytics/route.ts:494-530 | each factor contributes 0, 5, 15 or 25; the score is in [0, 100]; High exactly from 60, Medium exactly in [30, 60), Low exactly below 30 |
| Business.RiskScoreMonotone | app/api/projects/analytics/route.ts:499-521 | the score never drops as the overdue share or backlog slope rise, or as the velocity slope or completion rate fall; a High level stays High |
| Business.EmptyProjectRisk | app/api/projects/analytics/route.ts:494-530 | a project without tasks and without rising backlog or falling velocity scores 25, Low |
| Report.ForecastDates | app/api/projects/analytics/route.ts:319-323 | definition; `ReportShape` proves the seven forecast dates are the seven days after today |
| Report.TimeSeriesOf | app/api/projects/analytics/route.ts:288-325 | definition of `timeSeriesAnalysis`; `ReportShape` and `EmptyProjectSeries` prove its sizes and its flat case |
| Report.SignalsOf | app/api/projects/analytics/route.ts:327-437 | definition: what the insight rules read; `QuietSignals` proves when none fires |
| Report.BusinessOf | app/api/projects/analytics/route.ts:439-531 | definition of `businessMetrics`; `ReportShape` and `EmptyProjectReport` prove its range and its empty case |
| Report.ReportOf | app/api/projects/analytics/route.ts:171-531 | definition of the whole report; `ComputeReport`, `ReportShape`, `ReportCountsAgree` and `EmptyProjectReport` prove its properties |
| Report.ComputeReport | app/api/projects/analytics/route.ts:171-531 | the handler's step-by-step computation returns exactly `ReportOf(tasks, members, timeRange, now)` |
| Report.TimeSeriesShape | app/api/projects/analytics/route.ts:297-324 | n - w + 1 moving averages per series for the route's window w, 7 forecasts per series, and 7 forecast dates on the seven days after today |
| Report.ReportShape | app/api/projects/analytics/route.ts:171-531 | the report has one activity record per window day, n - w + 1 moving averages for the route's window w, 7 forecasts on the next seven days, at most six insights and a risk score in [0, 100] |
| Report.ReportCountsAgree | app/api/projects/analytics/route.ts:171-286 | bucket counts + completed = total; the completed series sums to at most the completed count; the last backlog is the window's creations minus completions |
| Report.ZeroSeriesIsFlat | app/api/projects/analytics/route.ts:288-325 | an all-zero series has slope 0, no anomalies and no seasonality |
| Report.EmptyProjectSeries | app/api/projects/analytics/route.ts:279-325 | a project without tasks has flat completed and backlog trends, no anomalies and no seasonality |
| Report.NoTasksNoPerformance | app/api/projects/analytics/route.ts:241-277 | without tasks no member has an assigned task, so `memberPerformance` is empty |
| Report.EmptyProjectReport | app/api/projects/analytics/route.ts:171-531 | a project without tasks reports zero counts, no members, no insights, no cycle time, estimate or on-time rate, and risk 25, Low |
| LiveAnalytics.CompletionRate | components/pm/analytics/utils/analyticsCalculations.ts:9-11 | definition; `CompletionRateBounds` proves it is a percentage |
| LiveAnalytics.CompletionRateBounds | components/pm/analytics/utils/analyticsCalculations.ts:9-11 | the completion rate is in [0, 100], 100 when every task is completed |
| LiveAnalytics.OverdueRate | components/pm/analytics/utils/analyticsCalculations.ts:14-17 | definition; `OverdueRateBounds` proves it is a percentage, and 100 exactly when no task has a due date or fewer than one dated task in 200 is overdue |
| LiveAnalytics.OverdueRateBounds | components/pm/analytics/utils/analyticsCalculations.ts:14-17 | the overdue rate is in [0, 100], 100 when nothing is overdue, and, because the share is rounded, 100 exactly when no task has a due date or 200·overdue is below the number of dated tasks |
| LiveAnalytics.Marks | components/pm/analytics/utils/analyticsCalculations.ts:24-26 | one mark count per day, between 0 and 2, above 0 exactly on a day with some creation or completion |
| LiveAnalytics.LastDays | components/pm/analytics/utils/analyticsCalculations.ts:20-21 | the last n days, or the whole series for n = 0 |
| LiveAnalytics.ActivityLevel | components/pm/analytics/utils/analyticsCalculations.ts:20-28 | definition; `ActivityLevelBounds` proves it is NaN only for an empty series and otherwise a percentage |
| LiveAnalytics.ActivityLevelBounds | components/pm/analytics/utils/analyticsCalculations.ts:20-28 | the activity level is NaN (None) exactly for an empty series, otherwise in [0, 100] |
| LiveAnalytics.HealthScore | components/pm/analytics/utils/analyticsCalculations.ts:31 | definition: the rounded 0.4/0.4/0.2 weighting; `HealthScoreBounds` proves its range |
| LiveAnalytics.StatusOf | components/pm/analytics/utils/analyticsCalculations.ts:34-37 | definition; `HealthScoreBounds` proves the status bands |
| LiveAnalytics.HealthScoreBounds | components/pm/analytics/utils/analyticsCalculations.ts:31-37 | for components in [0, 100] the score is in [0, 100], and the status is Excellent, Good, Fair or Needs Improvement exactly from 80, in [65, 80), in [50, 65), below 50 |
| LiveAnalytics.ProjectHealthOf | components/pm/analytics/utils/analyticsCalculations.ts:7-48 | definition of `calculateProjectHealth`; `ReportHealthBounds` proves every figure is a percentage |
| LiveAnalytics.ReportHealthBounds | components/pm/analytics/utils/analyticsCalculations.ts:7-48 | for a consistent report with activity, the score and all details are in [0, 100] |
| LiveAnalytics.Change | components/pm/analytics/utils/analyticsCalculations.ts:68-74 | definition; `ChangeFollowsDifference` proves its sign and floor |
| LiveAnalytics.TrendsOf | components/pm/analytics/utils/analyticsCalculations.ts:50-80 | definition of `calculateTrends`; `TrendsIgnoreFirstDayOfOddSeries` and `IdlePeriodsReadAsGrowth` prove its behaviour |
| LiveAnalytics.ChangeFollowsDifference | components/pm/analytics/utils/analyticsCalculations.ts:68-74 | against a positive previous period the change is positive only for growth, 0 for no change, never negative for growth, never below -100 |
| LiveAnalytics.TrendsIgnoreFirstDayOfOddSeries | components/pm/analytics/utils/analyticsCalculations.ts:50-80 | for an odd length the first day plays no part |
| LiveAnalytics.IdlePeriodsReadAsGrowth | components/pm/analytics/utils/analyticsCalculations.ts:50-80 | an all-zero series reports 100% growth for both kinds |
| LiveAnalytics.IntSumZeroCounts | components/pm/analytics/utils/analyticsCalculations.ts:61-65 | an idle series sums to 0 creations and 0 completions |
| LiveAnalytics.CumulativeOf | components/pm/analytics/utils/analyticsCalculations.ts:82-97 | one record per day with date, created and completed unchanged, running sums up to and including the day, backlog their difference |
| LiveAnalytics.CumulativeActivity | components/pm/analytics/utils/analyticsCalculations.ts:82-97 | the two running counters produce exactly `CumulativeOf(a)`; the identical loop of `AnalyticsHelperFunctions.tsx` (lines 95-110) is the same member |
| LiveAnalytics.CumulativeBacklogStep | components/pm/analytics/utils/analyticsCalculations.ts:86-95 | consecutive backlogs differ by that day's created minus completed |
| LiveAnalytics.CumulativeBacklogIsRouteBacklog | components/pm/analytics/utils/analyticsCalculations.ts:82-97 | the page's backlog equals the route's `backlogByDay` |
| LiveAnalytics.StatusSlices | components/pm/analytics/utils/analyticsCalculations.ts:99-105 | definition; `SlicesKeepNonzero` proves it keeps exactly the non-zero counts in label order |
| LiveAnalytics.DueDateSlices | components/pm/analytics/utils/analyticsCalculations.ts:107-115 | definition; `SlicesKeepNonzero` proves it keeps exactly the non-zero counts in label order |
| LiveAnalytics.SlicesKeepNonzero | components/pm/analytics/utils/analyticsCalculations.ts:99-115 | the formatters keep exactly the non-zero entries in their fixed label order, at most 3 and 5 of them |
| HelperAnalytics.TrendsOf | components/pm/analytics/AnalyticsHelperFunctions.tsx:3-27 | definition of the second `calculateTrends`; `HalvesCoverSeries` and `IdleHalvesReadAsNoChange` prove its behaviour |
| HelperAnalytics.HalvesCoverSeries | components/pm/analytics/AnalyticsHelperFunctions.tsx:6-13 | the two halves make up the series, the second has the extra day, and their sums add up to the whole |
| HelperAnalytics.HalfChange | components/pm/analytics/AnalyticsHelperFunctions.tsx:15-21 | definition; `HalfChangeFollowsDifference` proves its sign, floor and idle case |
| HelperAnalytics.HalfChangeFollowsDifference | components/pm/analytics/AnalyticsHelperFunctions.tsx:15-21 | against a positive first half the change is positive exactly for growth and never below -100; after an idle first half it is 100 times the second |
| HelperAnalytics.IdleHalvesReadAsNoChange | components/pm/analytics/AnalyticsHelperFunctions.tsx:3-27 | an all-zero series reports 0 change for both kinds |
| HelperAnalytics.DayTotals | components/pm/analytics/AnalyticsHelperFunctions.tsx:49-50 | definition: each day's creations plus completions; `ActivityShareBounds` proves the share built on them is a percentage |
| HelperAnalytics.LastWeek | components/pm/analytics/AnalyticsHelperFunctions.tsx:47 | the last min(7, n) days |
| Numeric.RealMin | components/pm/analytics/AnalyticsHelperFunctions.tsx:51 | `Math.min` of two numbers: at most both, and one of them |
| HelperAnalytics.HealthValue | components/pm/analytics/AnalyticsHelperFunctions.tsx:54-58 | definition: the 0.4/0.3/0.3 weighting; `ScoreIsConvexCombination` proves it lies between the components |
| HelperAnalytics.CompletionShare | components/pm/analytics/AnalyticsHelperFunctions.tsx:38-39 | definition; `CompletionShareBounds` proves it is a percentage |
| HelperAnalytics.CompletionShareBounds | components/pm/analytics/AnalyticsHelperFunctions.tsx:38-39 | with no more completed than total tasks the share is in [0, 100], and 100 exactly when every task is completed |
| HelperAnalytics.ScoreIsConvexCombination | components/pm/analytics/AnalyticsHelperFunctions.tsx:30-58 | the weights sum to 1; the score lies between the smallest and the largest component |
| HelperAnalytics.OverdueShare | components/pm/analytics/AnalyticsHelperFunctions.tsx:42-44 | definition; `OverdueShareBounds` proves its bounds |
| HelperAnalytics.OverdueShareBounds | components/pm/analytics/AnalyticsHelperFunctions.tsx:41-44 | the overdue rate is at most 100, and non-negative exactly when overdue ≤ total - archived |
| HelperAnalytics.ActivityShare | components/pm/analytics/AnalyticsHelperFunctions.tsx:47-51 | definition; `ActivityShareBounds` proves it is NaN only for an empty series and otherwise a percentage |
| HelperAnalytics.ActivityShareBounds | components/pm/analytics/AnalyticsHelperFunctions.tsx:46-51 | the activity level is NaN (None) exactly for an empty series, otherwise in [0, 100] |
| HelperAnalytics.StatusOf | components/pm/analytics/AnalyticsHelperFunctions.tsx:61-65 | definition: the bands at 80, 60 and 40 on the unrounded score; `StatusFromUnroundedScore` shows the consequence |
| HelperAnalytics.ProjectHealthOf | components/pm/analytics/AnalyticsHelperFunctions.tsx:29-76 | definition of the second `calculateProjectHealth`; `StatusFromUnroundedScore` evaluates it on a sample |
| HelperAnalytics.StatusFromUnroundedScore | components/pm/analytics/AnalyticsHelperFunctions.tsx:60-75 | a score of 79.6 is reported as 80 yet with status Good |
| TaskEditor.ToggleMember | components/pm/EditTask.tsx:182-188 | definition; `ToggleFlipsMembership` and `ToggleTwice` prove it flips one id |
| TaskEditor.ToggleFlipsMembership | components/pm/EditTask.tsx:182-188 | toggling flips whether the id is selected and changes no other id |
| TaskEditor.ToggleTwice | components/pm/EditTask.tsx:182-188 | toggling twice restores the selected set, and the very list when the id was absent |
| TaskEditor.MembersToAdd | components/pm/EditTask.tsx:193 | definition; `MemberDiffExact` proves it is exactly selected minus current |
| TaskEditor.MembersToRemove | components/pm/EditTask.tsx:194 | definition; `MemberDiffExact` proves it is exactly current minus selected |
| TaskEditor.MemberDiffExact | components/pm/EditTask.tsx:192-194 | to-add is exactly selected minus current, to-remove exactly current minus selected, the two are disjoint, and applying both leaves exactly the selected users |
| TaskEditor.Split | components/pm/EditTask.tsx:362 | at least one piece, none containing the separator |
| TaskEditor.JoinSplit | components/pm/EditTask.tsx:362 | joining the pieces with the separator gives back the name |
| TaskEditor.LastPieceEmpty | components/pm/EditTask.tsx:362 | the last piece is empty exactly when the name is empty or ends with the separator |
| TaskEditor.Heads | components/pm/EditTask.tsx:363-364 | definition: the first characters of the pieces, joined; `HeadsOfSplit` proves what they are |
| TaskEditor.WordStarts | components/pm/EditTask.tsx:362-364 | definition: the characters that start words; `HeadsOfSplit` proves the heads are exactly these |
| TaskEditor.HeadsAfterSpace | components/pm/EditTask.tsx:362-363 | a trailing space opens an empty piece and starts no word, so the heads still equal the word starts |
| TaskEditor.HeadsAfterLetter | components/pm/EditTask.tsx:362-363 | another character extends the last piece, and is a new head exactly when it starts a word |
| TaskEditor.HeadsOfSplit | components/pm/EditTask.tsx:362-364 | the first characters of the pieces, joined, are exactly the characters that start words |
| TaskEditor.Upper | components/pm/EditTask.tsx:365 | definition on one character; `UpperAll` states its effect |
| TaskEditor.UpperAll | components/pm/EditTask.tsx:365 | same length; a-z letters become the matching capitals, every other character is kept, and no a-z letter is left |
| TaskEditor.Initials | components/pm/EditTask.tsx:359-367 | definition of `getInitials`; `InitialsAreWordStarts`, `InitialsOfTwoWords` and `BlankNameHasNoInitials` prove its behaviour |
| TaskEditor.InitialsAreWordStarts | components/pm/EditTask.tsx:359-367 | a non-empty name's initials are the upper-cased starts of its first two words, at most 2 characters |
| TaskEditor.InitialsOfTwoWords | components/pm/EditTask.tsx:359-367 | "al b" gives "AB" |
| TaskEditor.BlankNameHasNoInitials | components/pm/EditTask.tsx:359-367 | a name of one space gives "", not "?" |
| TaskEditor.FilteredTasks | components/pm/EditTask.tsx:379-384 | definition; `FilteredTasksExact` proves what each filter keeps |
| TaskEditor.FilteredTasksExact | components/pm/EditTask.tsx:379-384 | "active" keeps exactly the open tasks, "completed" exactly the completed ones, the two partition the list, order is kept, and any other filter keeps the list unchanged |
| TaskEditor.CompletionPercentage | components/pm/EditTask.tsx:386-387 | definition; `CompletionPercentageBounds` proves it is a percentage, 100 exactly when all are completed |
| TaskEditor.CompletionPercentageBounds | components/pm/EditTask.tsx:386-387 | the percentage is in [0, 100], and 100 for a non-empty list exactly when every task is completed |
| TaskEditor.ToggleCompletion | components/pm/EditTask.tsx:309-313 | the list keeps its length |
| TaskEditor.ToggleCompletionFlips | components/pm/EditTask.tsx:309-313 | only the tasks with the id flip `completed`, nothing else changes, and toggling twice restores the list |
| TaskEditor.RemoveTask | components/pm/EditTask.tsx:344 | definition: the filter of archiving and deleting; `RemoveTaskExact` proves what it removes |
| TaskEditor.RemoveTaskExact | components/pm/EditTask.tsx:330-344 | archiving (line 330) and deleting (line 344) both remove exactly the tasks with the id, keeping the others in order |

## Left out

- The request shell: authentication, database queries, the access checks and HTTP responses. The snapshot of tasks and members and the clock `now` are parameters instead.
- Date strings and local time. Dates in the report are integer day numbers, not `YYYY-MM-DD` strings. The day is a fixed 86 400 000 ms, with no time zone or daylight saving. Day boundaries come from an abstract "start of day".
- IEEE-754 details: rounding error, NaN and Infinity beyond the explicit `Undefined`/`None` cases, and the sign of zero.
- Anomalies.Score: keeps the squared z-score, not `|z|`. The square root is not modelled, and the flag is the equivalent test on squares.
- Regression.LinearRegression: r2 is `Undefined` where the code divides 0 by 0 (a flat series). It does not state r2 ≤ 1 in general, only for the exact-line case.
- Insights.BuildInsights: keeps each insight's numbers (slopes to 2 decimals, percentages, counts, names, dates). It leaves out the title, description and metric strings built around them.
- Insights.VelocityInsightIff, Insights.BacklogInsightIff: treat an `Undefined` slope as no insight. On the index series the route passes, the slope is always defined (`Regression.IndexFitDefined`).
- TaskEditor.Initials: characters are Unicode scalar values, not UTF-16 code units. So `word[0]` and `substring(0, 2)` differ on a word that starts outside the 16-bit range: for "😀 Bob" the source gives a lone surrogate followed by "B", and the model gives "😀B". TaskEditor.Heads and TaskEditor.Split take characters the same way.
- TaskEditor.Upper: upper-cases ASCII letters only. `toUpperCase` on other scripts, which can change a string's length, is not modelled.
- TaskEditor.ToggleCompletion: the task record carries only id, title and completed. The other fields the source copies unchanged (description, due date, assignee, timestamps) are not modelled.
- The task editor's member search (`filteredMembers`) is not modelled: it lower-cases with the full Unicode rules.
- The upcoming-deadlines count in the task editor is not modelled: it reads the wall clock.
- The task editor's fetch handlers, and every React component, chart and tooltip, are not modelled.
- MemberPerformance.AverageCompletionTime, Business.CycleTime: count days as milliseconds / 86 400 000, exactly. Non-negativity holds only when no task is updated before it was created (`CycleTimeNonnegative`), and the code does not ensure that.
- Business.EstimateIsFewestDays: the estimate's date is today's day number plus the day count. The time-of-day and the ISO string are not modelled.

## Findings

| source | as written | input that shows it | evidently intended | confidence | as-written member | corrected member |
|---|---|---|---|---|---|---|
| app/api/projects/analytics/route.ts:422-428 | the weekly-pattern insight names pattern position k by adding k to the weekday of the current week's Sunday, which is 0, so position k is always named after the k-th day from Sunday | `now` = 1 January 1970 (a Thursday), 14-day window: position 0 averages days 0 and 7 of the window, both Fridays, yet it is named "Sunday" | name position k after the weekday of the window's day k, which every day k, k + 7, ... of the window shares | high (not executed) | Insights.PatternInsights, Insights.WeekdayNameAsWritten, Insights.WeekdayNameAsWrittenMislabels, Insights.PatternInsightsDisagree | Insights.CorrectedPatternInsights, Insights.CorrectedPatternInsightNamesExtremes, Insights.PatternWeekdayIsShared |

The report (`Report.ReportOf`, `Report.ComputeReport`) names the weekly
pattern as the code does, through `Insights.PatternInsights`. The corrected
rule, `Insights.CorrectedPatternInsights`, sits beside it with its own
proof, and `Insights.PatternInsightsDisagree` exhibits an input on which
the two differ.

Behaviours of the code that are easy to misread, which the model follows:

- The end of the week is the next Sunday at midnight, not Saturday.
- r2 of a flat series is 0/0, not 0.
- The seasonality strength is not clamped below.
- The weekly-pattern insight has the type "insight".
- In exact arithmetic, `[1, 1, 1, 1, 100]` has a z-score of exactly 2 at the spike. The test is `> 2`, so the spike is not flagged (`Anomalies.SpikeAtTwoDeviations`).

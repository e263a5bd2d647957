/** The analytics report of `GET /api/projects/analytics`, computed from a
    snapshot of the project's tasks and members, the `timeRange` parameter
    and the current time. */
module Report {
  import opened Numeric
  import opened Sequences
  import opened Snapshot
  import opened TaskMetrics
  import opened Activity
  import opened MemberPerformance
  import opened Regression
  import opened Anomalies
  import opened MovingAverages
  import opened Seasonality
  import opened Insights
  import opened Business

  datatype Trends = Trends(created: Fit, completed: Fit, backlog: Fit)

  /** `timeSeriesAnalysis`; forecast dates are day numbers. */
  datatype TimeSeriesAnalysis = TimeSeriesAnalysis(
    trends: Trends,
    createdAverages: seq<Ratio>,
    completedAverages: seq<Ratio>,
    createdAnomalies: seq<Scored>,
    completedAnomalies: seq<Scored>,
    createdSeasonality: SeasonalityResult,
    completedSeasonality: SeasonalityResult,
    createdForecast: seq<Option<real>>,
    completedForecast: seq<Option<real>>,
    forecastDates: seq<int>)

  datatype RiskAssessment = RiskAssessment(score: int, level: RiskLevel)

  datatype BusinessMetrics = BusinessMetrics(
    cycleTime: Option<real>,
    throughput: real,
    estimatedCompletion: Option<Estimate>,
    onTimeDelivery: Option<int>,
    riskAssessment: RiskAssessment)

  datatype AnalyticsReport = AnalyticsReport(
    taskMetrics: Metrics,
    tasksByDueDate: DueBuckets,
    taskActivityOverTime: seq<DayActivity>,
    memberPerformance: seq<MemberStats>,
    timeSeriesAnalysis: TimeSeriesAnalysis,
    aiInsights: seq<Insight>,
    businessMetrics: BusinessMetrics)

  /** The route's fixed parameters: z-score threshold, season length and
      forecast horizon. */
  const AnomalyThreshold: real := 2.0
  const Period: nat := 7
  const Horizon: nat := 7

  /** The dates of the forecast: the seven days after today. */
  function ForecastDates(now: int): seq<int>
  {
    seq(Horizon, i requires 0 <= i < Horizon => DayNumber(now) + i + 1)
  }

  /** `timeSeriesAnalysis`, from the three daily series. */
  function TimeSeriesOf(created: seq<int>, completed: seq<int>, backlog: seq<int>, now: int): TimeSeriesAnalysis
  {
    var c, d := AsReals(created), AsReals(completed);
    TimeSeriesAnalysis(
      Trends(IndexRegression(c), IndexRegression(d), IndexRegression(AsReals(backlog))),
      MovingAverageOf(c, RouteWindow(|created|)),
      MovingAverageOf(d, RouteWindow(|completed|)),
      DetectAnomalies(c, AnomalyThreshold),
      DetectAnomalies(d, AnomalyThreshold),
      SeasonalityOf(c, Period),
      SeasonalityOf(d, Period),
      Forecast(c, Horizon),
      Forecast(d, Horizon),
      ForecastDates(now))
  }

  /** What the insight rules are given. */
  function SignalsOf(metrics: Metrics, buckets: DueBuckets, members: seq<MemberStats>, ts: TimeSeriesAnalysis,
                     activity: seq<DayActivity>, days: nat, now: int): Signals
  {
    Signals(
      ts.trends.completed.slope,
      ts.trends.backlog.slope,
      buckets.overdue,
      metrics.total,
      members,
      ts.completedAnomalies,
      seq(|activity|, k requires 0 <= k < |activity| => activity[k].date),
      now,
      ts.completedSeasonality)
  }

  function RiskFactorsOf(metrics: Metrics, buckets: DueBuckets, ts: TimeSeriesAnalysis): RiskFactors
  {
    FactorsOf(buckets.overdue, metrics.completed, metrics.total, ts.trends.backlog.slope, ts.trends.completed.slope)
  }

  /** `businessMetrics`. */
  function BusinessOf(tasks: seq<Task>, metrics: Metrics, buckets: DueBuckets, completed: seq<int>,
                      ts: TimeSeriesAnalysis, days: nat, now: int): BusinessMetrics
    requires days > 0
  {
    var score := RiskScore(RiskFactorsOf(metrics, buckets, ts));
    BusinessMetrics(
      CycleTime(tasks),
      Throughput(completed, days),
      EstimatedCompletion(metrics.incomplete, completed, now),
      OnTimeDelivery(tasks),
      RiskAssessment(score, LevelOf(score)))
  }

  /** The whole report. */
  function ReportOf(tasks: seq<Task>, members: seq<Member>, timeRange: Option<string>, now: int): AnalyticsReport
  {
    var days := WindowDays(timeRange);
    var metrics := MetricsOf(tasks);
    var buckets := DueBucketsOf(tasks, now);
    var activity := ActivityOf(tasks, days, now);
    var performance := MemberPerformanceOf(tasks, members, now);
    var created, completed := CreatedByDay(activity), CompletedByDay(activity);
    var ts := TimeSeriesOf(created, completed, BacklogByDay(created, completed), now);
    AnalyticsReport(
      metrics,
      buckets,
      activity,
      performance,
      ts,
      InsightsOf(SignalsOf(metrics, buckets, performance, ts, activity, days, now)),
      BusinessOf(tasks, metrics, buckets, completed, ts, days, now))
  }

  /** The body of `GET` once the snapshot is loaded: the loops of the route
      (dates, moving averages, seasonality) run as written, the insights and
      the risk score are built statement by statement as the route builds
      them, and the rest is computed by its expressions. */
  method ComputeReport(tasks: seq<Task>, members: seq<Member>, timeRange: Option<string>, now: int)
    returns (r: AnalyticsReport)
    ensures r == ReportOf(tasks, members, timeRange, now)
  {
    var days := WindowDays(timeRange);
    var metrics := MetricsOf(tasks);
    var buckets := DueBucketsOf(tasks, now);
    var dates := BuildDates(days, now);
    var activity := seq(|dates|, k requires 0 <= k < |dates| => DayActivityOf(tasks, dates[k]));
    assert activity == ActivityOf(tasks, days, now);
    var performance := MemberPerformanceOf(tasks, members, now);
    var created, completed := CreatedByDay(activity), CompletedByDay(activity);
    var backlog := BacklogByDay(created, completed);
    var c, d := AsReals(created), AsReals(completed);
    var createdAverages := MovingAverage(c, RouteWindow(|created|));
    var completedAverages := MovingAverage(d, RouteWindow(|completed|));
    var createdSeasonality := CalculateSeasonality(c, Period);
    var completedSeasonality := CalculateSeasonality(d, Period);
    var ts := TimeSeriesAnalysis(
      Trends(IndexRegression(c), IndexRegression(d), IndexRegression(AsReals(backlog))),
      createdAverages,
      completedAverages,
      DetectAnomalies(c, AnomalyThreshold),
      DetectAnomalies(d, AnomalyThreshold),
      createdSeasonality,
      completedSeasonality,
      Forecast(c, Horizon),
      Forecast(d, Horizon),
      ForecastDates(now));
    assert ts == TimeSeriesOf(created, completed, backlog, now);
    var insights := BuildInsights(SignalsOf(metrics, buckets, performance, ts, activity, days, now));
    var score, level := AssessRisk(RiskFactorsOf(metrics, buckets, ts));
    var business := BusinessMetrics(
      CycleTime(tasks),
      Throughput(completed, days),
      EstimatedCompletion(metrics.incomplete, completed, now),
      OnTimeDelivery(tasks),
      RiskAssessment(score, level));
    r := AnalyticsReport(metrics, buckets, activity, performance, ts, insights, business);
  }

  // ---------------------------------------------------------------------------
  // Properties of the whole report

  /** The sizes the report promises: one activity record per day of the
      window, a moving average per window position, seven forecasts dated
      on the seven days after today, at most six insights, a risk score in
      [0, 100]. */
  lemma ReportShape(tasks: seq<Task>, members: seq<Member>, timeRange: Option<string>, now: int)
    ensures var r := ReportOf(tasks, members, timeRange, now);
      var days := WindowDays(timeRange);
      |r.taskActivityOverTime| == days &&
      |r.timeSeriesAnalysis.createdAverages| == days - RouteWindow(days) + 1 &&
      |r.timeSeriesAnalysis.completedAverages| == days - RouteWindow(days) + 1 &&
      |r.timeSeriesAnalysis.createdForecast| == Horizon &&
      |r.timeSeriesAnalysis.completedForecast| == Horizon &&
      (forall i :: 0 <= i < Horizon ==> r.timeSeriesAnalysis.forecastDates[i] == DayNumber(now) + i + 1) &&
      |r.aiInsights| <= 6 &&
      0 <= r.businessMetrics.riskAssessment.score <= 100
  {
    var r := ReportOf(tasks, members, timeRange, now);
    var days := WindowDays(timeRange);
    var activity := ActivityOf(tasks, days, now);
    var performance := MemberPerformanceOf(tasks, members, now);
    var created, completed := CreatedByDay(activity), CompletedByDay(activity);
    var ts := TimeSeriesOf(created, completed, BacklogByDay(created, completed), now);
    assert r.timeSeriesAnalysis == ts;
    TimeSeriesShape(created, completed, BacklogByDay(created, completed), now);
    AtMostSixInsights(SignalsOf(MetricsOf(tasks), DueBucketsOf(tasks, now), performance, ts, activity, days, now));
    RiskScoreBounds(RiskFactorsOf(MetricsOf(tasks), DueBucketsOf(tasks, now), ts));
  }

  /** The sizes of `timeSeriesAnalysis`: a moving average per window
      position and seven forecasts, dated on the seven days after today. */
  lemma TimeSeriesShape(created: seq<int>, completed: seq<int>, backlog: seq<int>, now: int)
    ensures var ts := TimeSeriesOf(created, completed, backlog, now);
      |ts.createdAverages| == |created| - RouteWindow(|created|) + 1 &&
      |ts.completedAverages| == |completed| - RouteWindow(|completed|) + 1 &&
      |ts.createdForecast| == Horizon && |ts.completedForecast| == Horizon &&
      |ts.forecastDates| == Horizon &&
      forall i :: 0 <= i < Horizon ==> ts.forecastDates[i] == DayNumber(now) + i + 1
  {
    var c, d := AsReals(created), AsReals(completed);
    assert |c| == |created| && |d| == |completed|;
  }

  /** The counts of the report agree with each other: the due-date buckets
      hold exactly the tasks not completed, the daily completions never
      exceed the completed tasks, and the last backlog value is the window's
      creations minus its completions. */
  lemma ReportCountsAgree(tasks: seq<Task>, members: seq<Member>, timeRange: Option<string>, now: int)
    ensures var r := ReportOf(tasks, members, timeRange, now);
      var b := r.tasksByDueDate;
      b.overdue + b.dueToday + b.dueThisWeek + b.dueLater + b.noDueDate + r.taskMetrics.completed == r.taskMetrics.total
    ensures var r := ReportOf(tasks, members, timeRange, now);
      IntSum(CompletedByDay(r.taskActivityOverTime)) <= r.taskMetrics.completed
    ensures var r := ReportOf(tasks, members, timeRange, now);
      var a := r.taskActivityOverTime;
      var first := WindowStart(|a|, now);
      BacklogByDay(CreatedByDay(a), CompletedByDay(a))[|a| - 1]
        == Count(tasks, Happened(Creation, first, StartOfDay(now) + DayMs))
         - Count(tasks, Happened(Completion, first, StartOfDay(now) + DayMs))
  {
    var days := WindowDays(timeRange);
    CountComplement(tasks, IsCompleted, IsOpen);
    CompletionsAreCompletedTasks(tasks, days, now);
    BacklogIsNetWindowActivity(tasks, days, now);
  }

  // ---------------------------------------------------------------------------
  // A project without tasks

  lemma ZeroSeriesIsFlat(s: seq<int>)
    requires forall i :: 0 <= i < |s| ==> s[i] == 0
    ensures IndexRegression(AsReals(s)).slope == Defined(0.0)
    ensures DetectAnomalies(AsReals(s), AnomalyThreshold) == []
    ensures !SeasonalityOf(AsReals(s), Period).hasSeasonality
  {
    var d := AsReals(s);
    ConstantSeriesFit(d, 0.0);
    if |d| > 0 {
      SumConstant(d, 0.0);
      var m := Mean(d);
      SumByConstantZero(d, SquaredDeviation(m));
      NoSpreadNoAnomalies(d, AnomalyThreshold);
    }
    if |d| >= 2 * Period {
      SilentSeriesIsNotSeasonal(d, Period);
    }
  }

  lemma {:induction false} SumByConstantZero(d: seq<real>, f: real -> real)
    requires forall i :: 0 <= i < |d| ==> f(d[i]) == 0.0
    ensures SumBy(d, f) == 0.0
    decreases |d|
  {
    if |d| > 0 {
      SumByConstantZero(d[..|d| - 1], f);
    }
  }

  /** Without tasks the daily series are all zero, so both trends are flat
      and neither anomalies nor a weekly pattern are found. */
  lemma EmptyProjectSeries(days: nat, now: int)
    ensures var a := ActivityOf([], days, now);
      var created, completed := CreatedByDay(a), CompletedByDay(a);
      var ts := TimeSeriesOf(created, completed, BacklogByDay(created, completed), now);
      ts.trends.completed.slope == Defined(0.0) &&
      ts.trends.backlog.slope == Defined(0.0) &&
      ts.completedAnomalies == [] &&
      !ts.completedSeasonality.hasSeasonality
  {
    var activity := ActivityOf([], days, now);
    var created, completed := CreatedByDay(activity), CompletedByDay(activity);
    var backlog := BacklogByDay(created, completed);
    forall i | 0 <= i < days
      ensures created[i] == 0 && completed[i] == 0
    {
      CountZero([], Happened(Creation, DatesOf(days, now)[i], DatesOf(days, now)[i] + DayMs));
      CountZero([], Happened(Completion, DatesOf(days, now)[i], DatesOf(days, now)[i] + DayMs));
    }
    forall i | 0 <= i < days
      ensures backlog[i] == 0
    {
      IntSumZero(created[..i + 1]);
      IntSumZero(completed[..i + 1]);
    }
    ZeroSeriesIsFlat(completed);
    ZeroSeriesIsFlat(backlog);
  }

  /** Without tasks every count is zero, no member is listed, no insight is
      raised, nothing can be estimated, and the risk is 25 points (from the
      completion factor alone), which is low. */
  lemma EmptyProjectReport(members: seq<Member>, timeRange: Option<string>, now: int)
    ensures var r := ReportOf([], members, timeRange, now);
      r.taskMetrics == Metrics(0, 0, 0, 0) &&
      r.tasksByDueDate == DueBuckets(0, 0, 0, 0, 0) &&
      r.memberPerformance == [] &&
      r.aiInsights == [] &&
      r.businessMetrics.cycleTime.None? &&
      r.businessMetrics.estimatedCompletion.None? &&
      r.businessMetrics.onTimeDelivery.None? &&
      r.businessMetrics.riskAssessment == RiskAssessment(25, Low)
  {
    var days := WindowDays(timeRange);
    var metrics, buckets := MetricsOf([]), DueBucketsOf([], now);
    var activity := ActivityOf([], days, now);
    var performance := MemberPerformanceOf([], members, now);
    var created, completed := CreatedByDay(activity), CompletedByDay(activity);
    var ts := TimeSeriesOf(created, completed, BacklogByDay(created, completed), now);
    EmptyProjectSeries(days, now);
    NoTasksNoPerformance(members, now);
    QuietSignals(SignalsOf(metrics, buckets, performance, ts, activity, days, now));
    EmptyProjectRisk(ts.trends.backlog.slope, ts.trends.completed.slope);
  }

  /** Without tasks no member has an assigned task, so none is listed. */
  lemma NoTasksNoPerformance(members: seq<Member>, now: int)
    ensures MemberPerformanceOf([], members, now) == []
  {
    var all := AllStats([], members, StartOfDay(now));
    forall i | 0 <= i < |all|
      ensures !HasTasks(all[i])
    {
      assert Filter([], AssignedTo(members[i].id)) == [];
    }
    CountZero(all, HasTasks);
  }

  lemma {:induction false} IntSumZero(s: seq<int>)
    requires forall i :: 0 <= i < |s| ==> s[i] == 0
    ensures IntSum(s) == 0
    decreases |s|
  {
    if |s| > 0 {
      IntSumZero(s[..|s| - 1]);
    }
  }
}

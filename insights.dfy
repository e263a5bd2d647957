/** The rule-based insights (`aiInsights`) of the analytics report: six
    rules, each adding at most one insight, in a fixed order. */
module Insights {
  import opened Numeric
  import opened Sequences
  import opened Snapshot
  import opened MemberPerformance
  import opened Anomalies
  import opened Seasonality
  import opened Activity

  /** The insights the route can emit, with the figures their `metric` and
      `description` texts show. Dates are day numbers, weekdays indexes
      into `DayNames`. */
  datatype Insight =
    | IncreasingVelocity(rate: real)
    | DecreasingVelocity(rate: real)
    | GrowingBacklog(rate: real)
    | ShrinkingBacklog(rate: real)
    | HighOverdueRate(percent: int, overdue: nat)
    | UnbalancedWorkload(busiest: string, most: nat, idlest: string, fewest: nat, disparity: real)
    | ProductivitySpike(date: int, value: real)
    | ProductivityDrop(date: int, value: real)
    | WeeklyPattern(peak: string, dip: string, confidence: int)

  /** The insight's `type`. */
  datatype Kind = Positive | Negative | Warning | InsightType

  function KindOf(i: Insight): Kind
  {
    match i
    case IncreasingVelocity(_) => Positive
    case DecreasingVelocity(_) => Negative
    case GrowingBacklog(_) => Warning
    case ShrinkingBacklog(_) => Positive
    case HighOverdueRate(_, _) => Warning
    case UnbalancedWorkload(_, _, _, _, _) => Warning
    case ProductivitySpike(_, _) => Positive
    case ProductivityDrop(_, _) => Negative
    case WeeklyPattern(_, _, _) => InsightType
  }

  /** What the rules look at, all computed earlier in the route. `dates`
      are the day numbers of `taskActivityOverTime`; `now` is the current
      time, from which the weekly-pattern rule takes the current week. */
  datatype Signals = Signals(
    completedTrend: Ratio,
    backlogTrend: Ratio,
    overdue: nat,
    total: nat,
    members: seq<MemberStats>,
    completedAnomalies: seq<Scored>,
    dates: seq<int>,
    now: int,
    completedSeasonality: SeasonalityResult)

  const DayNames: seq<string> := ["Sunday", "Monday", "Tuesday", "Wednesday", "Thursday", "Friday", "Saturday"]

  // ---------------------------------------------------------------------------
  // Helpers: the first position of the largest and smallest value

  /** The first position holding the largest value. */
  function FirstMaxIndex(s: seq<real>): (k: nat)
    requires |s| > 0
    ensures k < |s|
    ensures forall j :: 0 <= j < |s| ==> s[j] <= s[k]
    ensures forall j :: 0 <= j < k ==> s[j] < s[k]
  {
    if |s| == 1 then 0
    else
      var k := FirstMaxIndex(s[1..]);
      if s[0] >= s[1..][k] then 0 else k + 1
  }

  /** The first position holding the smallest value. */
  function FirstMinIndex(s: seq<real>): (k: nat)
    requires |s| > 0
    ensures k < |s|
    ensures forall j :: 0 <= j < |s| ==> s[k] <= s[j]
    ensures forall j :: 0 <= j < k ==> s[k] < s[j]
  {
    if |s| == 1 then 0
    else
      var k := FirstMinIndex(s[1..]);
      if s[0] <= s[1..][k] then 0 else k + 1
  }

  /** The members' task counts, as the numbers the route compares. */
  function Assigned(ms: seq<MemberStats>): seq<real>
  {
    seq(|ms|, i requires 0 <= i < |ms| => ms[i].tasksAssigned as real)
  }

  /** A zero count replaced by 1, as JavaScript's `||` does. */
  function OrOne(n: nat): (m: nat)
    ensures m > 0
  {
    if n == 0 then 1 else n
  }

  // ---------------------------------------------------------------------------
  // The six rules

  /** Insight 1: the slope of the completed series beyond +-0.1 tasks/day. */
  function VelocityInsights(trend: Ratio): seq<Insight>
  {
    match trend
    case Undefined => []
    case Defined(b) =>
      if b > 0.1 then [IncreasingVelocity(Round2(b))]
      else if b < -0.1 then [DecreasingVelocity(Round2(b))]
      else []
  }

  /** Insight 2: the slope of the backlog series above 0.2 or below -0.1. */
  function BacklogInsights(trend: Ratio): seq<Insight>
  {
    match trend
    case Undefined => []
    case Defined(b) =>
      if b > 0.2 then [GrowingBacklog(Round2(b))]
      else if b < -0.1 then [ShrinkingBacklog(Round2(b))]
      else []
  }

  /** The overdue share of all tasks in percent; 0 for a project without tasks. */
  function OverduePercentage(overdue: nat, total: nat): real
  {
    if total > 0 then overdue as real / total as real * 100.0 else 0.0
  }

  /** Insight 3: more than 20% of all tasks overdue. */
  function OverdueInsights(overdue: nat, total: nat): seq<Insight>
  {
    var pct := OverduePercentage(overdue, total);
    if pct > 20.0 then [HighOverdueRate(Round(pct), overdue)] else []
  }

  /** Insight 4: among two or more members, the busiest has over three
      times the tasks of the least busy; each is the first member in the
      list with that many tasks. */
  function WorkloadInsights(ms: seq<MemberStats>): seq<Insight>
  {
    if |ms| <= 1 then []
    else
      var counts := Assigned(ms);
      var busiest := ms[FirstMaxIndex(counts)];
      var idlest := ms[FirstMinIndex(counts)];
      var disparity := busiest.tasksAssigned as real / OrOne(idlest.tasksAssigned) as real;
      if disparity > 3.0 then
        [UnbalancedWorkload(busiest.name, busiest.tasksAssigned, idlest.name, idlest.tasksAssigned, Round1(disparity))]
      else []
  }

  /** Insight 5: the latest completion anomaly, when it lies within the last
      seven days of the window. */
  function AnomalyInsights(anomalies: seq<Scored>, dates: seq<int>): seq<Insight>
  {
    if |anomalies| == 0 then []
    else
      var latest := anomalies[|anomalies| - 1];
      if latest.index < |dates| && latest.index >= |dates| - 7 then
        if latest.value > 0.0 then [ProductivitySpike(dates[latest.index], latest.value)]
        else [ProductivityDrop(dates[latest.index], latest.value)]
      else []
  }

  /** Insight 6: a weekly pattern of completions, naming its largest and
      smallest positions as the route does (see `WeekdayNameAsWritten`) and
      giving the strength as a percentage. */
  function PatternInsights(s: SeasonalityResult, now: int): seq<Insight>
  {
    if s.hasSeasonality && |s.pattern| > 0 then
      var peak := FirstMaxIndex(s.pattern);
      var dip := FirstMinIndex(s.pattern);
      var strength := if s.strength.Some? then s.strength.value else 0.0;
      [WeeklyPattern(WeekdayNameAsWritten(now, peak), WeekdayNameAsWritten(now, dip), Round(strength * 100.0))]
    else []
  }

  /** `aiInsights`: the rules' outcomes, in rule order. */
  function InsightsOf(s: Signals): seq<Insight>
  {
    VelocityInsights(s.completedTrend)
      + BacklogInsights(s.backlogTrend)
      + OverdueInsights(s.overdue, s.total)
      + WorkloadInsights(s.members)
      + AnomalyInsights(s.completedAnomalies, s.dates)
      + PatternInsights(s.completedSeasonality, s.now)
  }

  /** The route's sequence of `if` blocks, each pushing onto the list. */
  method BuildInsights(s: Signals) returns (insights: seq<Insight>)
    ensures insights == InsightsOf(s)
  {
    insights := [];
    if s.completedTrend.Defined? {
      var b := s.completedTrend.value;
      if b > 0.1 {
        insights := insights + [IncreasingVelocity(Round2(b))];
      } else if b < -0.1 {
        insights := insights + [DecreasingVelocity(Round2(b))];
      }
    }
    if s.backlogTrend.Defined? {
      var b := s.backlogTrend.value;
      if b > 0.2 {
        insights := insights + [GrowingBacklog(Round2(b))];
      } else if b < -0.1 {
        insights := insights + [ShrinkingBacklog(Round2(b))];
      }
    }
    assert insights == VelocityInsights(s.completedTrend) + BacklogInsights(s.backlogTrend);
    var pct := if s.total > 0 then s.overdue as real / s.total as real * 100.0 else 0.0;
    if pct > 20.0 {
      insights := insights + [HighOverdueRate(Round(pct), s.overdue)];
    }
    assert insights == VelocityInsights(s.completedTrend) + BacklogInsights(s.backlogTrend)
      + OverdueInsights(s.overdue, s.total);
    insights := insights + WorkloadInsights(s.members);
    ghost var upToWorkload := insights;
    if |s.completedAnomalies| > 0 {
      var latest := s.completedAnomalies[|s.completedAnomalies| - 1];
      if latest.index < |s.dates| && latest.index >= |s.dates| - 7 {
        if latest.value > 0.0 {
          insights := insights + [ProductivitySpike(s.dates[latest.index], latest.value)];
        } else {
          insights := insights + [ProductivityDrop(s.dates[latest.index], latest.value)];
        }
      }
    }
    assert insights == upToWorkload + AnomalyInsights(s.completedAnomalies, s.dates);
    insights := insights + PatternInsights(s.completedSeasonality, s.now);
  }

  // ---------------------------------------------------------------------------
  // Properties

  /** Each rule contributes at most one insight, so there are at most six. */
  lemma AtMostSixInsights(s: Signals)
    ensures |InsightsOf(s)| <= 6
  {
  }

  /** Flat trends, nothing overdue, at most one member, no anomaly and no
      weekly pattern: no rule fires. */
  lemma QuietSignals(s: Signals)
    requires s.completedTrend == Defined(0.0) && s.backlogTrend == Defined(0.0)
    requires s.overdue == 0 && |s.members| <= 1
    requires s.completedAnomalies == [] && !s.completedSeasonality.hasSeasonality
    ensures InsightsOf(s) == []
  {
  }

  /** A velocity insight appears exactly when the slope is defined and
      farther than 0.1 from zero; it is positive exactly when the slope is. */
  lemma VelocityInsightIff(trend: Ratio)
    ensures |VelocityInsights(trend)| == 1 <==> trend.Defined? && (trend.value > 0.1 || trend.value < -0.1)
    ensures |VelocityInsights(trend)| == 1 ==>
      (KindOf(VelocityInsights(trend)[0]) == Positive <==> trend.value > 0.0)
  {
  }

  /** Growing and shrinking backlogs are told apart by the sign of the slope,
      and a slope in [-0.1, 0.2] says nothing. */
  lemma BacklogInsightIff(trend: Ratio)
    ensures |BacklogInsights(trend)| == 1 <==> trend.Defined? && (trend.value > 0.2 || trend.value < -0.1)
    ensures |BacklogInsights(trend)| == 1 ==>
      (BacklogInsights(trend)[0].GrowingBacklog? <==> trend.value > 0.0)
  {
  }

  /** The overdue rule fires exactly when more than one task in five is
      overdue, and then reports a percentage above 20 and at most 100. */
  lemma OverdueInsightIff(overdue: nat, total: nat)
    requires overdue <= total
    ensures |OverdueInsights(overdue, total)| == 1 <==> total > 0 && 5 * overdue > total
    ensures |OverdueInsights(overdue, total)| == 1 ==>
      20 <= OverdueInsights(overdue, total)[0].percent <= 100
  {
    if total > 0 {
      var t := total as real;
      var o := overdue as real;
      var share := o / t;
      QuotientAbove(o, t, 0.2);
      QuotientAbove(o, t, 1.0);
      assert share > 0.2 <==> 5 * overdue > total;
      assert share <= 1.0;
      if share > 0.2 {
        RoundWithin(share * 100.0, 20, 100);
      }
    }
  }

  /** The disparity ratio exceeds 3 exactly when the larger count exceeds
      three times the smaller one (taken as 1 when it is 0). */
  lemma DisparityTest(most: nat, fewest: nat)
    ensures most as real / OrOne(fewest) as real > 3.0 <==> most > 3 * OrOne(fewest)
  {
    QuotientAbove(most as real, OrOne(fewest) as real, 3.0);
  }

  /** The workload rule fires exactly when there are two or more members
      and some member has more than three times the tasks of another
      (counting a member without tasks as having one). */
  lemma WorkloadInsightIff(ms: seq<MemberStats>)
    ensures |WorkloadInsights(ms)| == 1 <==>
      |ms| > 1 && exists i, j :: 0 <= i < |ms| && 0 <= j < |ms| && ms[i].tasksAssigned > 3 * OrOne(ms[j].tasksAssigned)
  {
    if |ms| > 1 {
      var counts := Assigned(ms);
      var top := FirstMaxIndex(counts);
      var bottom := FirstMinIndex(counts);
      DisparityTest(ms[top].tasksAssigned, ms[bottom].tasksAssigned);
      if exists i, j :: 0 <= i < |ms| && 0 <= j < |ms| && ms[i].tasksAssigned > 3 * OrOne(ms[j].tasksAssigned) {
        var i, j :| 0 <= i < |ms| && 0 <= j < |ms| && ms[i].tasksAssigned > 3 * OrOne(ms[j].tasksAssigned);
        assert counts[i] <= counts[top] && counts[bottom] <= counts[j];
      }
    }
  }

  /** The members the workload insight names hold the largest and the
      smallest task counts, are the first members holding them, and differ
      by a factor of at least 3 after rounding. */
  lemma WorkloadInsightNamesExtremes(ms: seq<MemberStats>)
    requires |WorkloadInsights(ms)| == 1
    ensures var w := WorkloadInsights(ms)[0];
      w.disparity >= 3.0 &&
      (forall k :: 0 <= k < |ms| ==> w.fewest <= ms[k].tasksAssigned <= w.most) &&
      (exists i :: 0 <= i < |ms| && ms[i].name == w.busiest && ms[i].tasksAssigned == w.most &&
         forall k :: 0 <= k < i ==> ms[k].tasksAssigned < w.most) &&
      (exists j :: 0 <= j < |ms| && ms[j].name == w.idlest && ms[j].tasksAssigned == w.fewest &&
         forall k :: 0 <= k < j ==> w.fewest < ms[k].tasksAssigned)
  {
    var counts := Assigned(ms);
    var top := FirstMaxIndex(counts);
    var bottom := FirstMinIndex(counts);
    var disparity := ms[top].tasksAssigned as real / OrOne(ms[bottom].tasksAssigned) as real;
    Round1Monotone(3.0, disparity);
    assert Round1(3.0) == 3.0;
    var w := WorkloadInsights(ms)[0];
    assert w.most == ms[top].tasksAssigned && w.fewest == ms[bottom].tasksAssigned;
    forall k | 0 <= k < |ms|
      ensures w.fewest <= ms[k].tasksAssigned <= w.most
    {
      assert counts[bottom] <= counts[k] <= counts[top];
    }
    forall k | 0 <= k < top
      ensures ms[k].tasksAssigned < w.most
    {
      assert counts[k] < counts[top];
    }
    forall k | 0 <= k < bottom
      ensures w.fewest < ms[k].tasksAssigned
    {
      assert counts[bottom] < counts[k];
    }
  }


  /** The anomaly insight reports the latest anomaly, dated within the last
      seven days of the window; it is a spike exactly when the value is
      positive. */
  lemma AnomalyInsightReportsLatest(anomalies: seq<Scored>, dates: seq<int>)
    ensures |AnomalyInsights(anomalies, dates)| <= 1
    ensures |AnomalyInsights(anomalies, dates)| == 1 ==>
      var latest := anomalies[|anomalies| - 1];
      var a := AnomalyInsights(anomalies, dates)[0];
      |dates| - 7 <= latest.index < |dates| &&
      a.date == dates[latest.index] && a.value == latest.value &&
      (a.ProductivitySpike? <==> latest.value > 0.0)
  {
  }

  /** `peak` and `dip` are the first positions of the largest and of the
      smallest value, the positions `indexOf(Math.max(...))` and
      `indexOf(Math.min(...))` return. */
  predicate FirstExtremes(p: seq<real>, peak: int, dip: int)
  {
    0 <= peak < |p| && 0 <= dip < |p| &&
    (forall k :: 0 <= k < |p| ==> p[dip] <= p[k] <= p[peak]) &&
    (forall k :: 0 <= k < peak ==> p[k] < p[peak]) &&
    (forall k :: 0 <= k < dip ==> p[dip] < p[k])
  }

  /** As written, the weekly pattern names the first largest and the first
      smallest pattern position `k` by `DayNames[k % 7]`, whatever the day of
      the week. */
  lemma PatternInsightNamesExtremes(s: SeasonalityResult, now: int)
    ensures |PatternInsights(s, now)| == 1 <==> s.hasSeasonality && |s.pattern| > 0
    ensures |PatternInsights(s, now)| == 1 ==>
      exists peak, dip ::
        PatternInsights(s, now)[0].peak == DayNames[peak % 7] &&
        PatternInsights(s, now)[0].dip == DayNames[dip % 7] &&
        FirstExtremes(s.pattern, peak, dip)
  {
    if s.hasSeasonality && |s.pattern| > 0 {
      var peak := FirstMaxIndex(s.pattern);
      var dip := FirstMinIndex(s.pattern);
      assert PatternInsights(s, now)[0].peak == DayNames[peak % 7];
      assert FirstExtremes(s.pattern, peak, dip);
    }
  }

  /** For a weekly seasonality computed by the route, the reported confidence
      lies between 70 and 100 percent. */
  lemma PatternConfidenceRange(data: seq<real>, now: int)
    requires SeasonalityOf(data, 7).hasSeasonality
    ensures |PatternInsights(SeasonalityOf(data, 7), now)| == 1
    ensures 70 <= PatternInsights(SeasonalityOf(data, 7), now)[0].confidence <= 100
  {
    var r := SeasonalityOf(data, 7);
    var st := Strength(data, AveragePattern(data, 7));
    assert r.strength == Some(Round2(st));
    Round2Monotone(0.7, st);
    assert Round2(0.7) == 0.7;
    RoundWithin(r.strength.value * 100.0, 70, 100);
  }

  // ---------------------------------------------------------------------------
  // The weekday names as the route computes them

  /** The route names pattern position `k` after `dayNames[(getDay() of the
      week's Sunday + k) % 7]`, with the Sunday taken from today; that
      Sunday's weekday is 0, so the name depends on `k` alone. */
  function WeekdayNameAsWritten(now: int, k: nat): (name: string)
    ensures name == DayNames[k % 7]
  {
    var today := StartOfDay(now);
    var startOfWeek := today - Weekday(today) * DayMs;
    SundayIsStartOfWeek(today);
    DayNames[(Weekday(startOfWeek) + k) % 7]
  }

  lemma SundayIsStartOfWeek(today: int)
    requires today % DayMs == 0
    ensures Weekday(today - Weekday(today) * DayMs) == 0
  {
    var d := DayNumber(today);
    var w := Weekday(today);
    DivModUnique(today, DayMs, d, 0);
    DivModUnique(today - w * DayMs, DayMs, d - w, 0);
    var q := (d + 4) / 7;
    assert d - w + 4 == q * 7;
    DivModUnique(d - w + 4, 7, q, 0);
  }

  /** On 1 January 1970 (a Thursday) the 14-day window starts on a Friday,
      so position 0 of the weekly pattern averages Fridays, yet the route
      calls it Sunday. */
  lemma WeekdayNameAsWrittenMislabels()
    ensures WeekdayNameAsWritten(0, 0) == "Sunday"
    ensures forall i: nat :: i < 14 && i % 7 == 0 ==>
      DayNames[Weekday(WindowStart(14, 0) + i * DayMs)] == "Friday"
  {
    var first := WindowStart(14, 0);
    assert first == -13 * DayMs;
    DivModUnique(first, DayMs, -13, 0);
    assert Weekday(first) == 5;
    forall i: nat | i < 14 && i % 7 == 0
      ensures DayNames[Weekday(first + i * DayMs)] == "Friday"
    {
      PatternWeekdayIsShared(first, 0, i);
    }
  }

  // ---------------------------------------------------------------------------
  // The weekly pattern named after the window's own weekdays

  /** The weekday of pattern position `k`: position `k` averages the days
      `k`, `k + 7`, ... of the window, which share a weekday with day `k`. */
  function PatternWeekday(windowStart: int, k: nat): (w: nat)
    ensures w < 7
  {
    Weekday(windowStart + k * DayMs)
  }

  /** Every day that pattern position `k` averages falls on the weekday the
      insight names for `k`. */
  lemma PatternWeekdayIsShared(windowStart: int, k: nat, i: nat)
    requires windowStart % DayMs == 0 && i % 7 == k % 7
    ensures Weekday(windowStart + i * DayMs) == PatternWeekday(windowStart, k)
  {
    var d := windowStart / DayMs;
    DivModUnique(windowStart, DayMs, d, 0);
    DivModUnique(windowStart + i * DayMs, DayMs, d + i, 0);
    DivModUnique(windowStart + k * DayMs, DayMs, d + k, 0);
    var w := (d + k + 4) % 7;
    var q := (d + k + 4) / 7;
    var qi := i / 7;
    var qk := k / 7;
    assert i == qi * 7 + k % 7;
    assert k == qk * 7 + k % 7;
    assert d + i + 4 == (q + qi - qk) * 7 + w;
    DivModUnique(d + i + 4, 7, q + qi - qk, w);
  }

  /** Insight 6 with each pattern position named after the weekday of the
      window days it averages. */
  function CorrectedPatternInsights(s: SeasonalityResult, windowStart: int): seq<Insight>
  {
    if s.hasSeasonality && |s.pattern| > 0 then
      var peak := FirstMaxIndex(s.pattern);
      var dip := FirstMinIndex(s.pattern);
      var strength := if s.strength.Some? then s.strength.value else 0.0;
      [WeeklyPattern(DayNames[PatternWeekday(windowStart, peak)], DayNames[PatternWeekday(windowStart, dip)],
                     Round(strength * 100.0))]
    else []
  }

  /** The corrected pattern insight names the weekday shared by every window
      day the first largest pattern position averages, and likewise for the
      first smallest. */
  lemma CorrectedPatternInsightNamesExtremes(s: SeasonalityResult, windowStart: int)
    requires windowStart % DayMs == 0
    ensures |CorrectedPatternInsights(s, windowStart)| == 1 <==> s.hasSeasonality && |s.pattern| > 0
    ensures |CorrectedPatternInsights(s, windowStart)| == 1 ==>
      exists peak, dip ::
        (forall i: nat :: i % 7 == peak % 7 ==>
           CorrectedPatternInsights(s, windowStart)[0].peak == DayNames[Weekday(windowStart + i * DayMs)]) &&
        (forall i: nat :: i % 7 == dip % 7 ==>
           CorrectedPatternInsights(s, windowStart)[0].dip == DayNames[Weekday(windowStart + i * DayMs)]) &&
        FirstExtremes(s.pattern, peak, dip)
  {
    if s.hasSeasonality && |s.pattern| > 0 {
      var peak := FirstMaxIndex(s.pattern);
      var dip := FirstMinIndex(s.pattern);
      var w := CorrectedPatternInsights(s, windowStart)[0];
      forall i: nat | i % 7 == peak % 7
        ensures w.peak == DayNames[Weekday(windowStart + i * DayMs)]
      {
        PatternWeekdayIsShared(windowStart, peak, i);
      }
      forall i: nat | i % 7 == dip % 7
        ensures w.dip == DayNames[Weekday(windowStart + i * DayMs)]
      {
        PatternWeekdayIsShared(windowStart, dip, i);
      }
      assert FirstExtremes(s.pattern, peak, dip);
    }
  }

  /** On 1 January 1970 with a 14-day window and completions peaking at
      pattern position 0, the route's insight says Sunday while the
      corrected one says Friday. */
  lemma PatternInsightsDisagree()
    ensures var s := SeasonalityResult(true, Some(0.8), [1.0, 0.0, 0.0, 0.0, 0.0, 0.0, 0.0]);
      PatternInsights(s, 0)[0].peak == "Sunday" &&
      CorrectedPatternInsights(s, WindowStart(14, 0))[0].peak == "Friday"
  {
    var s := SeasonalityResult(true, Some(0.8), [1.0, 0.0, 0.0, 0.0, 0.0, 0.0, 0.0]);
    var peak := FirstMaxIndex(s.pattern);
    assert peak == 0 by {
      assert s.pattern[0] == 1.0;
      assert forall j :: 0 <= j < |s.pattern| ==> s.pattern[j] <= 1.0;
    }
    WeekdayNameAsWrittenMislabels();
    assert 0 % 7 == 0;
  }
}

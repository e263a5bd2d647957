/** The client-side derivations the analytics page shows
    (`components/pm/analytics/utils/analyticsCalculations.ts`): project
    health, period-over-period trends, the cumulative series and the chart
    data of the status and due-date pies. */
module LiveAnalytics {
  import opened Numeric
  import opened Sequences
  import opened TaskMetrics
  import opened Activity

  // ---------------------------------------------------------------------------
  // Project health

  datatype HealthStatus = Excellent | Good | Fair | NeedsImprovement

  /** `activityLevel` and `score` are `None` where the page computes NaN
      (an empty activity series divides 0 by 0). */
  datatype ProjectHealth = ProjectHealth(
    score: Option<int>,
    status: HealthStatus,
    completionRate: int,
    overdueRate: int,
    activityLevel: Option<int>)

  /** Completed tasks as a rounded percentage of all tasks; 0 without tasks. */
  function CompletionRate(m: Metrics): int
  {
    if m.total > 0 then Round(m.completed as real / m.total as real * 100.0) else 0
  }

  /** 100 minus the rounded overdue percentage of the tasks with a due date
      (all tasks minus those without), floored at 0; 100 when no task has a
      due date. */
  function OverdueRate(m: Metrics, b: DueBuckets): int
  {
    var withDueDate := m.total - b.noDueDate;
    if withDueDate > 0 then Max(0, 100 - Round(b.overdue as real / withDueDate as real * 100.0)) else 100
  }

  /** One point for a day with a creation, one for a day with a completion. */
  function ActiveMarks(d: DayActivity): int
  {
    (if d.created > 0 then 1 else 0) + (if d.completed > 0 then 1 else 0)
  }

  /** Each day's points: between 0 and 2, and above 0 exactly on a day with
      some creation or completion. */
  function Marks(a: seq<DayActivity>): (m: seq<int>)
    ensures |m| == |a|
    ensures forall i :: 0 <= i < |a| ==> 0 <= m[i] <= 2 && (m[i] > 0 <==> a[i].created > 0 || a[i].completed > 0)
  {
    seq(|a|, i requires 0 <= i < |a| => ActiveMarks(a[i]))
  }

  /** `slice(-n)` of the activity series: its last `n` days (all of them
      when `n` is 0, which only happens for an empty series). */
  function LastDays(a: seq<DayActivity>, n: nat): (r: seq<DayActivity>)
    requires n <= |a|
    ensures |r| == (if n == 0 then |a| else n)
  {
    if n == 0 then a else a[|a| - n..]
  }

  /** The points of the last `min(7, n)` days as a rounded percentage of
      the points possible. */
  function ActivityLevel(a: seq<DayActivity>): Option<int>
  {
    var recentDays := Min(7, |a|);
    if recentDays == 0 then None
    else
      var points := IntSum(Marks(LastDays(a, recentDays)));
      Some(Round(points as real / (recentDays * 2) as real * 100.0))
  }

  /** The weighted score (0.4 completion, 0.4 overdue, 0.2 activity), rounded. */
  function HealthScore(completionRate: int, overdueRate: int, activityLevel: Option<int>): Option<int>
  {
    match activityLevel
    case None => None
    case Some(al) => Some(Round(0.4 * completionRate as real + 0.4 * overdueRate as real + 0.2 * al as real))
  }

  /** The bands at 80, 65 and 50; a NaN score fails every comparison. */
  function StatusOf(score: Option<int>): HealthStatus
  {
    match score
    case None => NeedsImprovement
    case Some(s) => if s >= 80 then Excellent else if s >= 65 then Good else if s >= 50 then Fair else NeedsImprovement
  }

  /** `calculateProjectHealth`. */
  function ProjectHealthOf(m: Metrics, b: DueBuckets, a: seq<DayActivity>): ProjectHealth
  {
    var cr := CompletionRate(m);
    var or := OverdueRate(m, b);
    var al := ActivityLevel(a);
    var score := HealthScore(cr, or, al);
    ProjectHealth(score, StatusOf(score), cr, or, al)
  }

  /** The completion rate is a percentage whenever no more tasks are
      completed than exist. */
  lemma CompletionRateBounds(m: Metrics)
    requires m.completed <= m.total
    ensures 0 <= CompletionRate(m) <= 100
    ensures m.total > 0 && m.completed == m.total ==> CompletionRate(m) == 100
  {
    if m.total > 0 {
      RoundedPercentage(m.completed, m.total);
    }
  }

  /** The overdue rate is always a percentage, and 100 when nothing is
      overdue. Since the share is rounded, it is also 100 while fewer than one
      dated task in 200 is overdue: 100 exactly when no task has a due date
      or `200 * overdue` is below the number of dated tasks. */
  lemma OverdueRateBounds(m: Metrics, b: DueBuckets)
    ensures 0 <= OverdueRate(m, b) <= 100
    ensures b.overdue == 0 ==> OverdueRate(m, b) == 100
    ensures OverdueRate(m, b) == 100 <==>
      m.total - b.noDueDate <= 0 || 200 * b.overdue < m.total - b.noDueDate
  {
    var withDueDate := m.total - b.noDueDate;
    if withDueDate > 0 {
      var share := b.overdue as real / withDueDate as real;
      QuotientAbove(b.overdue as real, withDueDate as real, 0.0);
      RoundMonotone(0.0, share * 100.0);
      RoundOfInteger(0);
      RoundedPercentageVanishes(b.overdue, withDueDate);
    }
  }

  /** The activity level is missing exactly for an empty series, and
      otherwise is a percentage. */
  lemma ActivityLevelBounds(a: seq<DayActivity>)
    ensures ActivityLevel(a).None? <==> |a| == 0
    ensures ActivityLevel(a).Some? ==> 0 <= ActivityLevel(a).value <= 100
  {
    var recentDays := Min(7, |a|);
    if recentDays > 0 {
      var marks := Marks(LastDays(a, recentDays));
      IntSumBounded(marks, 2);
      RoundedPercentage(IntSum(marks), recentDays * 2);
    }
  }

  /** With every component a percentage the score is one too, and the
      status follows the bands: Excellent from 80, Good from 65, Fair from
      50, otherwise Needs Improvement. */
  lemma HealthScoreBounds(cr: int, or: int, al: int)
    requires 0 <= cr <= 100 && 0 <= or <= 100 && 0 <= al <= 100
    ensures var s := HealthScore(cr, or, Some(al));
      s.Some? && 0 <= s.value <= 100 &&
      (StatusOf(s) == Excellent <==> s.value >= 80) &&
      (StatusOf(s) == Good <==> 65 <= s.value < 80) &&
      (StatusOf(s) == Fair <==> 50 <= s.value < 65) &&
      (StatusOf(s) == NeedsImprovement <==> s.value < 50)
  {
    RoundWithin(0.4 * cr as real + 0.4 * or as real + 0.2 * al as real, 0, 100);
  }

  /** For the figures of any report the health score is a percentage. */
  lemma ReportHealthBounds(m: Metrics, b: DueBuckets, a: seq<DayActivity>)
    requires m.completed <= m.total && |a| > 0
    ensures var h := ProjectHealthOf(m, b, a);
      h.score.Some? && 0 <= h.score.value <= 100 &&
      0 <= h.completionRate <= 100 && 0 <= h.overdueRate <= 100 &&
      h.activityLevel.Some? && 0 <= h.activityLevel.value <= 100
  {
    CompletionRateBounds(m);
    OverdueRateBounds(m, b);
    ActivityLevelBounds(a);
    HealthScoreBounds(CompletionRate(m), OverdueRate(m, b), ActivityLevel(a).value);
  }

  // ---------------------------------------------------------------------------
  // Period-over-period trends

  datatype ActivityTrends = ActivityTrends(created: int, completed: int)

  /** The change from the previous to the current period in rounded percent;
      100 whenever the previous period is 0. */
  function Change(current: int, previous: int): int
  {
    if previous == 0 then 100
    else Round((current - previous) as real / previous as real * 100.0)
  }

  /** `calculateTrends`: the last `floor(n/2)` days against the
      `floor(n/2)` days before them. */
  function TrendsOf(a: seq<DayActivity>): ActivityTrends
  {
    if |a| < 2 then ActivityTrends(0, 0)
    else
      var half := |a| / 2;
      var current := a[|a| - half..];
      var previous := a[|a| - 2 * half..|a| - half];
      ActivityTrends(
        Change(IntSum(CreatedByDay(current)), IntSum(CreatedByDay(previous))),
        Change(IntSum(CompletedByDay(current)), IntSum(CompletedByDay(previous))))
  }

  /** Against a positive previous period the change has the sign of the
      difference, is 0 for equal periods, and never drops below -100 for
      counts. */
  lemma ChangeFollowsDifference(current: int, previous: int)
    requires previous > 0
    ensures Change(current, previous) > 0 ==> current > previous
    ensures current >= previous ==> Change(current, previous) >= 0
    ensures current == previous ==> Change(current, previous) == 0
    ensures current >= 0 ==> Change(current, previous) >= -100
  {
    var p := previous as real;
    var q := (current - previous) as real / p;
    QuotientAbove((current - previous) as real, p, 0.0);
    QuotientAbove((current - previous) as real, p, -1.0);
    if current >= previous {
      RoundMonotone(0.0, q * 100.0);
      RoundOfInteger(0);
    }
    if current == previous {
      RoundOfInteger(0);
    }
    if current >= 0 {
      RoundMonotone(-100.0, q * 100.0);
      RoundOfInteger(-100);
    }
    if Change(current, previous) > 0 {
      assert q * 100.0 >= 0.5;
    }
  }

  /** With an odd number of days the first day takes no part. */
  lemma TrendsIgnoreFirstDayOfOddSeries(a: seq<DayActivity>)
    requires |a| >= 3 && |a| % 2 == 1
    ensures TrendsOf(a) == TrendsOf(a[1..])
  {
    var n := |a|;
    var half := n / 2;
    assert (n - 1) / 2 == half;
    var b := a[1..];
    assert b[|b| - half..] == a[n - half..];
    assert b[|b| - 2 * half..|b| - half] == a[n - 2 * half..n - half];
  }

  /** An idle previous period reads as +100% even when the current one is
      idle too. */
  lemma IdlePeriodsReadAsGrowth(a: seq<DayActivity>)
    requires |a| >= 2
    requires forall i :: 0 <= i < |a| ==> a[i].created == 0 && a[i].completed == 0
    ensures TrendsOf(a) == ActivityTrends(100, 100)
  {
    var half := |a| / 2;
    var previous := a[|a| - 2 * half..|a| - half];
    IntSumZeroCounts(previous);
  }

  lemma IntSumZeroCounts(a: seq<DayActivity>)
    requires forall i :: 0 <= i < |a| ==> a[i].created == 0 && a[i].completed == 0
    ensures IntSum(CreatedByDay(a)) == 0 && IntSum(CompletedByDay(a)) == 0
  {
    IntSumBounded(CreatedByDay(a), 0);
    IntSumBounded(CompletedByDay(a), 0);
  }

  // ---------------------------------------------------------------------------
  // Cumulative series

  /** A day of the series with the running totals and the backlog. */
  datatype CumulativeDay = CumulativeDay(
    date: int,
    created: nat,
    completed: nat,
    cumulativeCreated: int,
    cumulativeCompleted: int,
    backlog: int)

  /** The series with prefix sums up to and including each day. */
  function CumulativeOf(a: seq<DayActivity>): (r: seq<CumulativeDay>)
    ensures |r| == |a|
    ensures forall i :: 0 <= i < |a| ==>
      r[i].date == a[i].date && r[i].created == a[i].created && r[i].completed == a[i].completed &&
      r[i].cumulativeCreated == IntSum(CreatedByDay(a)[..i + 1]) &&
      r[i].cumulativeCompleted == IntSum(CompletedByDay(a)[..i + 1]) &&
      r[i].backlog == r[i].cumulativeCreated - r[i].cumulativeCompleted
  {
    seq(|a|, i requires 0 <= i < |a| =>
      var cc := IntSum(CreatedByDay(a)[..i + 1]);
      var cd := IntSum(CompletedByDay(a)[..i + 1]);
      CumulativeDay(a[i].date, a[i].created, a[i].completed, cc, cd, cc - cd))
  }

  /** `calculateCumulativeActivityData`: two running counters advanced day
      by day. */
  method CumulativeActivity(a: seq<DayActivity>) returns (r: seq<CumulativeDay>)
    ensures r == CumulativeOf(a)
  {
    var cumulativeCreated := 0;
    var cumulativeCompleted := 0;
    r := [];
    for i := 0 to |a|
      invariant |r| == i
      invariant cumulativeCreated == IntSum(CreatedByDay(a)[..i])
      invariant cumulativeCompleted == IntSum(CompletedByDay(a)[..i])
      invariant forall k :: 0 <= k < i ==> r[k] == CumulativeOf(a)[k]
    {
      IntSumPrefixStep(CreatedByDay(a), i);
      IntSumPrefixStep(CompletedByDay(a), i);
      cumulativeCreated := cumulativeCreated + a[i].created;
      cumulativeCompleted := cumulativeCompleted + a[i].completed;
      r := r + [CumulativeDay(a[i].date, a[i].created, a[i].completed,
                              cumulativeCreated, cumulativeCompleted, cumulativeCreated - cumulativeCompleted)];
    }
  }

  /** Each day's backlog moves by that day's creations minus completions. */
  lemma CumulativeBacklogStep(a: seq<DayActivity>, i: nat)
    requires i + 1 < |a|
    ensures CumulativeOf(a)[i + 1].backlog == CumulativeOf(a)[i].backlog + a[i + 1].created - a[i + 1].completed
  {
    IntSumPrefixStep(CreatedByDay(a), i + 1);
    IntSumPrefixStep(CompletedByDay(a), i + 1);
  }

  /** The page's backlog is the route's `backlogByDay`. */
  lemma CumulativeBacklogIsRouteBacklog(a: seq<DayActivity>)
    ensures forall i :: 0 <= i < |a| ==>
      CumulativeOf(a)[i].backlog == BacklogByDay(CreatedByDay(a), CompletedByDay(a))[i]
  {
  }

  // ---------------------------------------------------------------------------
  // Chart data

  datatype Slice = Slice(name: string, value: int)

  function HasValue(s: Slice): bool { s.value > 0 }

  function StatusSlicesAll(m: Metrics): seq<Slice>
  {
    [Slice("Completed", m.completed), Slice("Incomplete", m.incomplete), Slice("Archived", m.archived)]
  }

  function DueDateSlicesAll(b: DueBuckets): seq<Slice>
  {
    [Slice("Overdue", b.overdue), Slice("Due Today", b.dueToday), Slice("This Week", b.dueThisWeek),
     Slice("Later", b.dueLater), Slice("No Due Date", b.noDueDate)]
  }

  /** `getFormattedTaskStatusData`. */
  function StatusSlices(m: Metrics): seq<Slice>
  {
    Filter(StatusSlicesAll(m), HasValue)
  }

  /** `getFormattedDueDateData`. */
  function DueDateSlices(b: DueBuckets): seq<Slice>
  {
    Filter(DueDateSlicesAll(b), HasValue)
  }

  /** Both chart lists keep exactly the non-zero entries, in label order:
      at most 3 and 5 entries. */
  lemma SlicesKeepNonzero(m: Metrics, b: DueBuckets)
    ensures |StatusSlices(m)| <= 3 && |DueDateSlices(b)| <= 5
    ensures forall s :: s in StatusSlicesAll(m) ==> (s in StatusSlices(m) <==> s.value > 0)
    ensures forall s :: s in DueDateSlicesAll(b) ==> (s in DueDateSlices(b) <==> s.value > 0)
    ensures forall s :: s in StatusSlices(m) ==> s in StatusSlicesAll(m) && s.value > 0
    ensures forall s :: s in DueDateSlices(b) ==> s in DueDateSlicesAll(b) && s.value > 0
    ensures IsSubsequence(StatusSlices(m), StatusSlicesAll(m))
    ensures IsSubsequence(DueDateSlices(b), DueDateSlicesAll(b))
  {
    FilterIsSubsequence(StatusSlicesAll(m), HasValue);
    FilterIsSubsequence(DueDateSlicesAll(b), HasValue);
  }
}

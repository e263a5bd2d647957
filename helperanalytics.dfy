/** The second copy of the client-side derivations
    (`components/pm/analytics/AnalyticsHelperFunctions.tsx`), with its own
    trends and health score. Its cumulative series is the same computation
    as the first copy's, `LiveAnalytics.CumulativeActivity`. */
module HelperAnalytics {
  import opened Numeric
  import opened TaskMetrics
  import opened Activity

  // ---------------------------------------------------------------------------
  // Trends

  datatype ActivityTrends = ActivityTrends(created: int, completed: int)

  /** The change from the first to the second half in percent, before
      rounding; `second * 100` when the first half is 0. */
  function HalfChange(first: int, second: int): real
  {
    if first == 0 then (second * 100) as real
    else (second - first) as real / first as real * 100.0
  }

  /** `calculateTrends`: the first `floor(n/2)` days against the rest;
      a missing series (`None`) or one shorter than 2 days gives 0, 0. */
  function TrendsOf(data: Option<seq<DayActivity>>): ActivityTrends
  {
    match data
    case None => ActivityTrends(0, 0)
    case Some(a) =>
      if |a| < 2 then ActivityTrends(0, 0)
      else
        var first, second := a[..|a| / 2], a[|a| / 2..];
        ActivityTrends(
          Round(HalfChange(IntSum(CreatedByDay(first)), IntSum(CreatedByDay(second)))),
          Round(HalfChange(IntSum(CompletedByDay(first)), IntSum(CompletedByDay(second)))))
  }

  /** The halves cover the whole series, the second taking the extra day of
      an odd length. */
  lemma HalvesCoverSeries(a: seq<DayActivity>)
    requires |a| >= 2
    ensures a[..|a| / 2] + a[|a| / 2..] == a
    ensures |a[|a| / 2..]| == |a[..|a| / 2]| + |a| % 2
    ensures IntSum(CreatedByDay(a[..|a| / 2])) + IntSum(CreatedByDay(a[|a| / 2..])) == IntSum(CreatedByDay(a))
    ensures IntSum(CompletedByDay(a[..|a| / 2])) + IntSum(CompletedByDay(a[|a| / 2..])) == IntSum(CompletedByDay(a))
  {
    var first, second := a[..|a| / 2], a[|a| / 2..];
    assert first + second == a;
    assert CreatedByDay(a) == CreatedByDay(first) + CreatedByDay(second);
    assert CompletedByDay(a) == CompletedByDay(first) + CompletedByDay(second);
    IntSumAppend(CreatedByDay(first), CreatedByDay(second));
    IntSumAppend(CompletedByDay(first), CompletedByDay(second));
  }

  /** Against a positive first half the change has the sign of the
      difference and never drops below -100% for counts; after an idle first
      half it is `100 * second`, so 0 when both halves are idle. */
  lemma HalfChangeFollowsDifference(first: int, second: int)
    ensures first > 0 ==> (HalfChange(first, second) > 0.0 <==> second > first)
    ensures first > 0 && second >= 0 ==> HalfChange(first, second) >= -100.0
    ensures first == 0 ==> HalfChange(first, second) == 100.0 * second as real
  {
    if first > 0 {
      var p := first as real;
      QuotientAbove((second - first) as real, p, 0.0);
      QuotientAbove((second - first) as real, p, -1.0);
    }
  }

  /** Unlike the first copy, idle halves read as no change. */
  lemma IdleHalvesReadAsNoChange(a: seq<DayActivity>)
    requires |a| >= 2
    requires forall i :: 0 <= i < |a| ==> a[i].created == 0 && a[i].completed == 0
    ensures TrendsOf(Some(a)) == ActivityTrends(0, 0)
  {
    var first, second := a[..|a| / 2], a[|a| / 2..];
    IntSumBounded(CreatedByDay(first), 0);
    IntSumBounded(CompletedByDay(first), 0);
    IntSumBounded(CreatedByDay(second), 0);
    IntSumBounded(CompletedByDay(second), 0);
    RoundOfInteger(0);
  }

  // ---------------------------------------------------------------------------
  // Project health

  datatype HealthStatus = Excellent | Good | Fair | NeedsAttention

  /** Score and details rounded; `None` where the page computes NaN (an
      empty activity series). */
  datatype ProjectHealth = ProjectHealth(
    score: Option<int>,
    status: HealthStatus,
    completionRate: int,
    overdueRate: int,
    activityLevel: Option<int>)

  const CompletionWeight: real := 0.4
  const OverdueWeight: real := 0.3
  const ActivityWeight: real := 0.3

  /** Completed tasks as a percentage of all tasks; 0 without tasks. */
  function CompletionShare(m: Metrics): real
  {
    if m.total > 0 then m.completed as real / m.total as real * 100.0 else 0.0
  }

  /** 100 minus the overdue percentage of the tasks not archived; 100 when
      every task is archived. Not clamped. */
  function OverdueShare(m: Metrics, b: DueBuckets): real
  {
    var active := m.total - m.archived;
    if active > 0 then 100.0 - b.overdue as real / active as real * 100.0 else 100.0
  }

  function DayTotal(d: DayActivity): int { d.created + d.completed }

  function DayTotals(a: seq<DayActivity>): seq<int>
  {
    seq(|a|, i requires 0 <= i < |a| => DayTotal(a[i]))
  }

  /** `slice(-7)`: the last seven days, or all of them. */
  function LastWeek(a: seq<DayActivity>): (r: seq<DayActivity>)
    ensures |r| == Min(7, |a|)
  {
    a[|a| - Min(7, |a|)..]
  }

  /** The average of creations and completions per day and kind over the
      last week, where 10 counts as fully active, capped at 100. */
  function ActivityShare(a: seq<DayActivity>): Option<real>
  {
    var recent := LastWeek(a);
    if |recent| == 0 then None
    else
      var avg := IntSum(DayTotals(recent)) as real / (|recent| * 2) as real;
      Some(RealMin(avg / 10.0 * 100.0, 100.0))
  }

  /** The weighted health score, before rounding. */
  function HealthValue(cr: real, or: real, al: real): real
  {
    cr * CompletionWeight + or * OverdueWeight + al * ActivityWeight
  }

  /** The bands at 80, 60 and 40, judged on the unrounded score. */
  function StatusOf(value: Option<real>): HealthStatus
  {
    match value
    case None => NeedsAttention
    case Some(v) => if v >= 80.0 then Excellent else if v >= 60.0 then Good else if v >= 40.0 then Fair else NeedsAttention
  }

  /** `calculateProjectHealth`. */
  function ProjectHealthOf(m: Metrics, b: DueBuckets, a: seq<DayActivity>): ProjectHealth
  {
    var cr := CompletionShare(m);
    var or := OverdueShare(m, b);
    match ActivityShare(a)
    case None => ProjectHealth(None, NeedsAttention, Round(cr), Round(or), None)
    case Some(al) =>
      var v := HealthValue(cr, or, al);
      ProjectHealth(Some(Round(v)), StatusOf(Some(v)), Round(cr), Round(or), Some(Round(al)))
  }

  /** The weights add up to 1, so the score lies between the smallest and
      the largest of the three components. */
  lemma ScoreIsConvexCombination(cr: real, or: real, al: real)
    ensures CompletionWeight + OverdueWeight + ActivityWeight == 1.0
    ensures var lo := RealMin(cr, RealMin(or, al));
      lo <= HealthValue(cr, or, al)
    ensures var hi := -RealMin(-cr, RealMin(-or, -al));
      HealthValue(cr, or, al) <= hi
  {
  }

  /** The completion share is a percentage whenever no more tasks are
      completed than exist, and 100 exactly when every task is completed. */
  lemma CompletionShareBounds(m: Metrics)
    requires m.completed <= m.total
    ensures 0.0 <= CompletionShare(m) <= 100.0
    ensures m.total > 0 ==> (CompletionShare(m) == 100.0 <==> m.completed == m.total)
  {
    if m.total > 0 {
      var c, t := m.completed as real, m.total as real;
      QuotientAtLeast(c, t, 0.0);
      QuotientAbove(c, t, 1.0);
      if m.completed == m.total {
        SelfQuotient(t);
      }
      if c / t == 1.0 {
        assert c == (c / t) * t;
      }
    }
  }

  /** The overdue share never exceeds 100, and is non-negative exactly when
      no more tasks are overdue than are not archived. */
  lemma OverdueShareBounds(m: Metrics, b: DueBuckets)
    ensures OverdueShare(m, b) <= 100.0
    ensures m.total - m.archived > 0 ==> (OverdueShare(m, b) >= 0.0 <==> b.overdue <= m.total - m.archived)
  {
    var active := m.total - m.archived;
    if active > 0 {
      QuotientAbove(b.overdue as real, active as real, 0.0);
      QuotientAbove(b.overdue as real, active as real, 1.0);
    }
  }

  /** The activity share is missing exactly for an empty series, and
      otherwise is a percentage. */
  lemma ActivityShareBounds(a: seq<DayActivity>)
    ensures ActivityShare(a).None? <==> |a| == 0
    ensures ActivityShare(a).Some? ==> 0.0 <= ActivityShare(a).value <= 100.0
  {
    var recent := LastWeek(a);
    if |recent| > 0 {
      IntSumNonnegative(DayTotals(recent));
      var total := IntSum(DayTotals(recent)) as real;
      QuotientAbove(total, (|recent| * 2) as real, 0.0);
      if total == 0.0 {
        assert total / (|recent| * 2) as real == 0.0;
      }
    }
  }

  /** The status is judged before rounding: a score of 79.6 is reported as
      80, yet only as Good. */
  lemma StatusFromUnroundedScore()
    ensures var a := seq(5, i => DayActivity(i, 3, 3))[4 := DayActivity(4, 4, 4)];
      var h := ProjectHealthOf(Metrics(10, 10, 0, 0), DueBuckets(0, 0, 0, 0, 0), a);
      h.score == Some(80) && h.status == Good
  {
    var a := seq(5, i => DayActivity(i, 3, 3))[4 := DayActivity(4, 4, 4)];
    assert LastWeek(a) == a;
    var totals := DayTotals(a);
    assert totals == [6, 6, 6, 6, 8];
    assert IntSum(totals) == 32 by {
      assert IntSum([6]) == 6 by { assert [6][..0] == []; }
      assert IntSum([6, 6]) == 12 by { assert [6, 6][..1] == [6]; }
      assert IntSum([6, 6, 6]) == 18 by { assert [6, 6, 6][..2] == [6, 6]; }
      assert IntSum([6, 6, 6, 6]) == 24 by { assert [6, 6, 6, 6][..3] == [6, 6, 6]; }
      assert totals[..4] == [6, 6, 6, 6];
    }
    assert ActivityShare(a) == Some(32.0);
    assert CompletionShare(Metrics(10, 10, 0, 0)) == 100.0;
    assert HealthValue(100.0, 100.0, 32.0) == 79.6;
  }
}

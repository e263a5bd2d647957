/** The business metrics (`businessMetrics`) of the analytics report: cycle
    time, throughput, estimated completion, on-time delivery and the banded
    risk assessment. */
module Business {
  import opened Numeric
  import opened Sequences
  import opened Snapshot
  import opened MemberPerformance

  // ---------------------------------------------------------------------------
  // Cycle time and throughput

  /** `cycleTime`: the mean number of days from creation to the last update
      over the completed tasks, to one decimal; `None` when none is completed. */
  function CycleTime(tasks: seq<Task>): (c: Option<real>)
    ensures c.None? <==> Count(tasks, IsCompleted) == 0
  {
    AverageCompletionTime(Filter(tasks, IsCompleted))
  }

  /** When no completed task was last updated before its creation, the cycle
      time is never negative. */
  lemma CycleTimeNonnegative(tasks: seq<Task>)
    requires forall i :: 0 <= i < |tasks| && tasks[i].completed ==> tasks[i].updatedAt >= tasks[i].createdAt
    ensures CycleTime(tasks).Some? ==> CycleTime(tasks).value >= 0.0
  {
    var done := Filter(tasks, IsCompleted);
    forall i | 0 <= i < |done|
      ensures done[i].updatedAt >= done[i].createdAt
    {
      assert done[i] in tasks;
    }
    AverageCompletionTimeNonnegative(done);
  }

  /** `throughput`: completions per day over the window, to one decimal. */
  function Throughput(completedByDay: seq<int>, days: nat): real
    requires days > 0
  {
    Round1(IntSum(completedByDay) as real / days as real)
  }

  /** Throughput lies between 0 and the largest daily count when every
      daily count lies between 0 and `hi`, and the window has as many days
      as the series. */
  lemma ThroughputBounded(completedByDay: seq<int>, hi: int)
    requires |completedByDay| > 0
    requires forall i :: 0 <= i < |completedByDay| ==> 0 <= completedByDay[i] <= hi
    ensures 0.0 <= Throughput(completedByDay, |completedByDay|) <= hi as real
  {
    var n := |completedByDay|;
    IntSumNonnegative(completedByDay);
    IntSumBounded(completedByDay, hi);
    var total := IntSum(completedByDay) as real;
    QuotientAbove(total, n as real, hi as real);
    Round1Monotone(0.0, total / n as real);
    Round1Monotone(total / n as real, hi as real);
    assert Round1(0.0) == 0.0;
    Round1OfInteger(hi);
  }

  // ---------------------------------------------------------------------------
  // Estimated completion

  /** `{ date, daysRemaining }`; the date is a day number. */
  datatype Estimate = Estimate(date: int, daysRemaining: int)

  /** `completedByDay.slice(-14)`: the last 14 days, or all of them, so a
      suffix of the series no longer than 14. */
  function LastFortnight(s: seq<int>): (r: seq<int>)
    ensures |r| == Min(14, |s|)
    ensures s[..|s| - |r|] + r == s
  {
    s[|s| - Min(14, |s|)..]
  }

  /** The recent completion rate: the last 14 days' completions over 14,
      whatever the length of the window. */
  function CompletionRate(completedByDay: seq<int>): real
  {
    IntSum(LastFortnight(completedByDay)) as real / 14.0
  }

  /** `estimatedCompletion`: how many days the incomplete tasks take at the
      recent rate, and the date that many days after today. */
  function EstimatedCompletion(incomplete: nat, completedByDay: seq<int>, now: int): Option<Estimate>
  {
    if incomplete == 0 then None
    else
      var rate := CompletionRate(completedByDay);
      if rate <= 0.0 then None
      else
        var days := Ceil(incomplete as real / rate);
        Some(Estimate(DayNumber(now) + days, days))
  }

  /** An estimate exists exactly when tasks remain and something was
      completed in the last 14 days of non-negative counts; it names the
      fewest whole days in which the recent rate finishes the incomplete
      tasks, at least one, dated that many days after today. */
  lemma EstimateIsFewestDays(incomplete: nat, completedByDay: seq<int>, now: int)
    requires forall i :: 0 <= i < |completedByDay| ==> completedByDay[i] >= 0
    ensures EstimatedCompletion(incomplete, completedByDay, now).Some? <==>
      incomplete > 0 && IntSum(LastFortnight(completedByDay)) > 0
    ensures EstimatedCompletion(incomplete, completedByDay, now).Some? ==>
      var e := EstimatedCompletion(incomplete, completedByDay, now).value;
      var rate := CompletionRate(completedByDay);
      e.daysRemaining >= 1 &&
      e.daysRemaining as real * rate >= incomplete as real &&
      (e.daysRemaining - 1) as real * rate < incomplete as real &&
      e.date == DayNumber(now) + e.daysRemaining
  {
    RecentRateSign(completedByDay);
    if incomplete > 0 && CompletionRate(completedByDay) > 0.0 {
      FewestDays(incomplete as real, CompletionRate(completedByDay));
    }
  }

  /** Over non-negative daily counts the recent rate is positive exactly
      when something was completed in the last 14 days. */
  lemma RecentRateSign(completedByDay: seq<int>)
    requires forall i :: 0 <= i < |completedByDay| ==> completedByDay[i] >= 0
    ensures CompletionRate(completedByDay) > 0.0 <==> IntSum(LastFortnight(completedByDay)) > 0
  {
    var recent := LastFortnight(completedByDay);
    forall i | 0 <= i < |recent|
      ensures recent[i] >= 0
    {
      assert recent[i] == completedByDay[|completedByDay| - |recent| + i];
    }
    IntSumNonnegative(recent);
  }

  /** `ceil(work / rate)` is the fewest whole days, at least one, in which
      `rate` per day covers `work`. */
  lemma FewestDays(work: real, rate: real)
    requires work > 0.0 && rate > 0.0
    ensures var days := Ceil(work / rate);
      days >= 1 && days as real * rate >= work && (days - 1) as real * rate < work
  {
    QuotientAbove(work, rate, 0.0);
    QuotientAbove(work, rate, Ceil(work / rate) as real);
    QuotientAbove(work, rate, (Ceil(work / rate) - 1) as real);
  }

  // ---------------------------------------------------------------------------
  // On-time delivery

  function CompletedWithDueDate(t: Task): bool { t.completed && t.dueDate.Some? }

  /** Completed (as of the last update) no later than the end of the due day. */
  function OnTime(t: Task): bool
  {
    t.dueDate.Some? && t.updatedAt <= EndOfDay(t.dueDate.value)
  }

  /** `onTimeDelivery`: the percentage of completed tasks with a due date
      that were completed on time; `None` when there are none. */
  function OnTimeDelivery(tasks: seq<Task>): Option<int>
  {
    var due := Filter(tasks, CompletedWithDueDate);
    if |due| == 0 then None
    else Some(Round(Count(due, OnTime) as real / |due| as real * 100.0))
  }

  /** The on-time rate exists exactly when some completed task has a due
      date; it is a percentage, 100 when every such task was on time and 0
      when none was. */
  lemma OnTimeDeliveryIsPercentage(tasks: seq<Task>)
    ensures OnTimeDelivery(tasks).None? <==> Count(tasks, CompletedWithDueDate) == 0
    ensures OnTimeDelivery(tasks).Some? ==> 0 <= OnTimeDelivery(tasks).value <= 100
    ensures OnTimeDelivery(tasks).Some? ==>
      var due := Filter(tasks, CompletedWithDueDate);
      (OnTimeDelivery(tasks).value == 100 <== Count(due, OnTime) == |due|) &&
      (OnTimeDelivery(tasks).value == 0 <== Count(due, OnTime) == 0)
  {
    var due := Filter(tasks, CompletedWithDueDate);
    if |due| > 0 {
      RoundedPercentage(Count(due, OnTime), |due|);
    }
  }

  // ---------------------------------------------------------------------------
  // Risk assessment

  datatype RiskLevel = Low | Medium | High

  /** A percentage, or 0 when there is nothing to take a share of. */
  function Percentage(part: nat, total: nat): real
  {
    if total > 0 then part as real / total as real * 100.0 else 0.0
  }

  /** Factor 1: the overdue percentage, banded at 5, 10 and 20. */
  function OverdueRisk(overduePct: real): int
  {
    if overduePct > 20.0 then 25 else if overduePct > 10.0 then 15 else if overduePct > 5.0 then 5 else 0
  }

  /** Factor 2: the backlog slope, banded at 0, 0.1 and 0.3; an undefined
      slope (NaN) fails every comparison. */
  function BacklogRisk(backlogTrend: Ratio): int
  {
    match backlogTrend
    case Undefined => 0
    case Defined(b) => if b > 0.3 then 25 else if b > 0.1 then 15 else if b > 0.0 then 5 else 0
  }

  /** Factor 3: the velocity slope, banded at 0, -0.1 and -0.2. */
  function VelocityRisk(velocityTrend: Ratio): int
  {
    match velocityTrend
    case Undefined => 0
    case Defined(v) => if v < -0.2 then 25 else if v < -0.1 then 15 else if v < 0.0 then 5 else 0
  }

  /** Factor 4: the completion percentage, banded at 30, 50 and 70. */
  function CompletionRisk(completionPct: real): int
  {
    if completionPct < 30.0 then 25 else if completionPct < 50.0 then 15 else if completionPct < 70.0 then 5 else 0
  }

  /** The four factors of a project. */
  datatype RiskFactors = RiskFactors(overduePct: real, backlogTrend: Ratio, velocityTrend: Ratio, completionPct: real)

  function FactorsOf(overdue: nat, completed: nat, total: nat, backlogTrend: Ratio, velocityTrend: Ratio): RiskFactors
  {
    RiskFactors(Percentage(overdue, total), backlogTrend, velocityTrend, Percentage(completed, total))
  }

  /** The risk score: the sum of the four banded factors. */
  function RiskScore(f: RiskFactors): int
  {
    OverdueRisk(f.overduePct) + BacklogRisk(f.backlogTrend) + VelocityRisk(f.velocityTrend) + CompletionRisk(f.completionPct)
  }

  function LevelOf(score: int): RiskLevel
  {
    if score >= 60 then High else if score >= 30 then Medium else Low
  }

  /** `riskAssessment`: the score accumulated factor by factor, then its level. */
  method AssessRisk(f: RiskFactors) returns (score: int, level: RiskLevel)
    ensures score == RiskScore(f) && level == LevelOf(score)
  {
    score := 0;
    score := score + if f.overduePct > 20.0 then 25 else if f.overduePct > 10.0 then 15 else if f.overduePct > 5.0 then 5 else 0;
    var b := if f.backlogTrend.Defined? then f.backlogTrend.value else 0.0;
    score := score + if f.backlogTrend.Defined? && b > 0.3 then 25
                     else if f.backlogTrend.Defined? && b > 0.1 then 15
                     else if f.backlogTrend.Defined? && b > 0.0 then 5 else 0;
    var v := if f.velocityTrend.Defined? then f.velocityTrend.value else 0.0;
    score := score + if f.velocityTrend.Defined? && v < -0.2 then 25
                     else if f.velocityTrend.Defined? && v < -0.1 then 15
                     else if f.velocityTrend.Defined? && v < 0.0 then 5 else 0;
    score := score + if f.completionPct < 30.0 then 25 else if f.completionPct < 50.0 then 15 else if f.completionPct < 70.0 then 5 else 0;
    if score >= 60 {
      level := High;
    } else if score >= 30 {
      level := Medium;
    } else {
      level := Low;
    }
  }

  predicate IsBand(c: int) { c == 0 || c == 5 || c == 15 || c == 25 }

  /** Each factor contributes 0, 5, 15 or 25 points, so the score lies in
      [0, 100], and the level is High, Medium or Low exactly as the score
      reaches 60, 30 or neither. */
  lemma RiskScoreBounds(f: RiskFactors)
    ensures IsBand(OverdueRisk(f.overduePct)) && IsBand(BacklogRisk(f.backlogTrend))
    ensures IsBand(VelocityRisk(f.velocityTrend)) && IsBand(CompletionRisk(f.completionPct))
    ensures 0 <= RiskScore(f) <= 100
    ensures LevelOf(RiskScore(f)) == High <==> RiskScore(f) >= 60
    ensures LevelOf(RiskScore(f)) == Medium <==> 30 <= RiskScore(f) < 60
    ensures LevelOf(RiskScore(f)) == Low <==> RiskScore(f) < 30
  {
  }

  /** A slope as a number for comparing risks: an undefined slope counts as
      no trend at all, which scores like a zero slope. */
  function SlopeOrZero(r: Ratio): real
  {
    if r.Defined? then r.value else 0.0
  }

  /** The score never falls as the overdue share or the backlog slope rise,
      and never rises as the velocity slope or the completion share rise. */
  lemma RiskScoreMonotone(f: RiskFactors, g: RiskFactors)
    requires f.overduePct <= g.overduePct
    requires SlopeOrZero(f.backlogTrend) <= SlopeOrZero(g.backlogTrend)
    requires SlopeOrZero(f.velocityTrend) >= SlopeOrZero(g.velocityTrend)
    requires f.completionPct >= g.completionPct
    ensures RiskScore(f) <= RiskScore(g)
    ensures LevelOf(RiskScore(f)) == High ==> LevelOf(RiskScore(g)) == High
  {
  }

  /** A project without tasks scores only the completion factor: 25 points,
      low risk. */
  lemma EmptyProjectRisk(backlogTrend: Ratio, velocityTrend: Ratio)
    requires SlopeOrZero(backlogTrend) <= 0.0 && SlopeOrZero(velocityTrend) >= 0.0
    ensures RiskScore(FactorsOf(0, 0, 0, backlogTrend, velocityTrend)) == 25
    ensures LevelOf(RiskScore(FactorsOf(0, 0, 0, backlogTrend, velocityTrend))) == Low
  {
  }
}

/** Per-member performance (`memberPerformance`) in the analytics report. */
module MemberPerformance {
  import opened Numeric
  import opened Sequences
  import opened Snapshot

  /** `{ userId, name, tasksAssigned, tasksCompleted, avgCompletionTime,
      tasksOverdue }`; `avgCompletionTime` is `None` for the route's `null`. */
  datatype MemberStats = MemberStats(
    userId: string,
    name: string,
    tasksAssigned: nat,
    tasksCompleted: nat,
    avgCompletionTime: Option<real>,
    tasksOverdue: nat)

  function AssignedTo(memberId: string): Task -> bool
  {
    (t: Task) => t.assignedTo == Some(memberId)
  }

  /** Days from creation to the last update, which stands in for completion. */
  function CompletionDays(t: Task): real
  {
    (t.updatedAt - t.createdAt) as real / DayMs as real
  }

  /** The mean completion time in days, to one decimal; `None` without
      completed tasks. */
  function AverageCompletionTime(done: seq<Task>): (a: Option<real>)
    ensures a.None? <==> |done| == 0
  {
    if |done| == 0 then None
    else Some(Round1(SumBy(done, CompletionDays) / |done| as real))
  }

  /** Open, with a due date before today. */
  function OverdueAt(today: int): Task -> bool
  {
    (t: Task) => !t.completed && t.dueDate.Some? && t.dueDate.value < today
  }

  /** No more completed than assigned, overdue tasks only among the open
      ones, and an average completion time exactly when something was
      completed. */
  predicate Consistent(s: MemberStats)
  {
    s.tasksCompleted <= s.tasksAssigned &&
    s.tasksOverdue <= s.tasksAssigned - s.tasksCompleted &&
    (s.avgCompletionTime.None? <==> s.tasksCompleted == 0)
  }

  /** The figures of one member, before members without tasks are dropped;
      they are always consistent. */
  function StatsOf(tasks: seq<Task>, m: Member, today: int): (s: MemberStats)
    ensures s.userId == m.userId && s.name == m.name
    ensures Consistent(s)
  {
    var mine := Filter(tasks, AssignedTo(m.id));
    CountDisjointUnion(mine, IsCompleted, OverdueAt(today), CompletedOrOverdue(today));
    MemberStats(
      m.userId,
      m.name,
      |mine|,
      Count(mine, IsCompleted),
      AverageCompletionTime(Filter(mine, IsCompleted)),
      Count(mine, OverdueAt(today)))
  }

  function HasTasks(s: MemberStats): bool { s.tasksAssigned > 0 }

  /** The figures of every member, in member order. */
  function AllStats(tasks: seq<Task>, members: seq<Member>, today: int): seq<MemberStats>
  {
    seq(|members|, i requires 0 <= i < |members| => StatsOf(tasks, members[i], today))
  }

  /** `memberPerformance`: the figures of every member, in member order,
      keeping exactly the members with at least one assigned task; every
      record kept is consistent. */
  function MemberPerformanceOf(tasks: seq<Task>, members: seq<Member>, now: int): (r: seq<MemberStats>)
    ensures IsSubsequence(r, AllStats(tasks, members, StartOfDay(now)))
    ensures forall j :: 0 <= j < |r| ==> r[j].tasksAssigned > 0 && Consistent(r[j])
    ensures forall i :: 0 <= i < |members| && StatsOf(tasks, members[i], StartOfDay(now)).tasksAssigned > 0 ==>
      StatsOf(tasks, members[i], StartOfDay(now)) in r
  {
    var all := AllStats(tasks, members, StartOfDay(now));
    KeptStats(tasks, members, StartOfDay(now));
    FilterIsSubsequence(all, HasTasks);
    Filter(all, HasTasks)
  }

  // ---------------------------------------------------------------------------
  // Properties

  function CompletedOrOverdue(today: int): Task -> bool
  {
    (t: Task) => t.completed || OverdueAt(today)(t)
  }

  /** The records `memberPerformance` keeps have tasks and are consistent,
      and every member with tasks has its record kept. */
  lemma KeptStats(tasks: seq<Task>, members: seq<Member>, today: int)
    ensures var r := Filter(AllStats(tasks, members, today), HasTasks);
      forall j :: 0 <= j < |r| ==> r[j].tasksAssigned > 0 && Consistent(r[j])
    ensures forall i :: 0 <= i < |members| && StatsOf(tasks, members[i], today).tasksAssigned > 0 ==>
      StatsOf(tasks, members[i], today) in Filter(AllStats(tasks, members, today), HasTasks)
  {
    var all := AllStats(tasks, members, today);
    var r := Filter(all, HasTasks);
    forall j | 0 <= j < |r|
      ensures r[j].tasksAssigned > 0 && Consistent(r[j])
    {
      var i :| 0 <= i < |all| && all[i] == r[j];
    }
    forall i | 0 <= i < |members| && StatsOf(tasks, members[i], today).tasksAssigned > 0
      ensures StatsOf(tasks, members[i], today) in r
    {
      assert all[i] == StatsOf(tasks, members[i], today);
    }
  }

  /** When no task was last updated before it was created, average
      completion times are never negative. */
  lemma AverageCompletionTimeNonnegative(done: seq<Task>)
    requires forall i :: 0 <= i < |done| ==> done[i].updatedAt >= done[i].createdAt
    ensures AverageCompletionTime(done).Some? ==> AverageCompletionTime(done).value >= 0.0
  {
    if |done| > 0 {
      SumByNonnegative(done, CompletionDays);
      var avg := SumBy(done, CompletionDays) / |done| as real;
      Round1Monotone(0.0, avg);
      assert Round1(0.0) == 0.0;
    }
  }
}

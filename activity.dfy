/** The daily activity series of the analytics report: the `dates` loop,
    `taskActivityOverTime`, the `createdByDay`/`completedByDay` series and
    the cumulative `backlogByDay`. */
module Activity {
  import opened Numeric
  import opened Sequences
  import opened Snapshot

  /** `{ date, created, completed }` for one day; `date` is a day number. */
  datatype DayActivity = DayActivity(date: int, created: nat, completed: nat)

  /** The midnights of the last `days` days, oldest first, ending today. */
  function DatesOf(days: nat, now: int): (dates: seq<int>)
    ensures |dates| == days
    ensures forall k :: 0 <= k < days ==> dates[k] == StartOfDay(now) - (days - 1 - k) * DayMs
  {
    seq(days, k requires 0 <= k < days => StartOfDay(now) - (days - 1 - k) * DayMs)
  }

  /** The `dates` loop: for `i` from `days - 1` down to 0, push midnight
      `i` days before today. */
  method BuildDates(days: nat, now: int) returns (dates: seq<int>)
    ensures dates == DatesOf(days, now)
  {
    var today := StartOfDay(now);
    dates := [];
    var i: int := days - 1;
    while i >= 0
      invariant -1 <= i <= days - 1
      invariant |dates| == days - 1 - i
      invariant forall k :: 0 <= k < |dates| ==> dates[k] == today - (days - 1 - k) * DayMs
    {
      dates := dates + [today - i * DayMs];
      i := i - 1;
    }
  }

  /** The two things a day counts. */
  datatype Event = Creation | Completion

  /** The task was created, or completed (as judged by its last update),
      in `[lo, hi)`. */
  function Happened(e: Event, lo: int, hi: int): Task -> bool
  {
    (t: Task) => (e == Completion ==> t.completed) && lo <= Stamp(e, t) < hi
  }

  /** When the event happened: creation time, or the last update standing
      in for the completion time. */
  function Stamp(e: Event, t: Task): int
  {
    if e == Creation then t.createdAt else t.updatedAt
  }

  /** The activity of the day starting at midnight `date`. */
  function DayActivityOf(tasks: seq<Task>, date: int): DayActivity
  {
    DayActivity(
      DayNumber(date),
      Count(tasks, Happened(Creation, date, date + DayMs)),
      Count(tasks, Happened(Completion, date, date + DayMs)))
  }

  /** `taskActivityOverTime`: one record per day of the window, oldest first. */
  function ActivityOf(tasks: seq<Task>, days: nat, now: int): seq<DayActivity>
  {
    var dates := DatesOf(days, now);
    seq(days, k requires 0 <= k < days => DayActivityOf(tasks, dates[k]))
  }

  /** `createdByDay` and `completedByDay`. */
  function Counts(a: seq<DayActivity>, e: Event): seq<int>
  {
    seq(|a|, k requires 0 <= k < |a| => if e == Creation then a[k].created else a[k].completed)
  }

  function CreatedByDay(a: seq<DayActivity>): seq<int> { Counts(a, Creation) }
  function CompletedByDay(a: seq<DayActivity>): seq<int> { Counts(a, Completion) }

  /** `backlogByDay`: tasks created so far minus tasks completed so far. It
      starts at the first day's creations minus completions and moves each
      day by that day's creations minus completions. */
  function BacklogByDay(created: seq<int>, completed: seq<int>): (b: seq<int>)
    requires |created| == |completed|
    ensures |b| == |created|
    ensures |b| > 0 ==> b[0] == created[0] - completed[0]
    ensures forall i :: 0 <= i < |b| - 1 ==> b[i + 1] == b[i] + created[i + 1] - completed[i + 1]
  {
    IntSumPrefixSteps(created);
    IntSumPrefixSteps(completed);
    seq(|created|, i requires 0 <= i < |created| => IntSum(created[..i + 1]) - IntSum(completed[..i + 1]))
  }

  // ---------------------------------------------------------------------------
  // Properties

  /** The buckets are consecutive days ending today, each starting at
      midnight. */
  lemma DatesAreConsecutive(days: nat, now: int)
    ensures forall k :: 0 <= k < days ==> DatesOf(days, now)[k] % DayMs == 0
    ensures forall k :: 0 <= k < days - 1 ==> DatesOf(days, now)[k + 1] == DatesOf(days, now)[k] + DayMs
    ensures days > 0 ==> DatesOf(days, now)[days - 1] == StartOfDay(now)
  {
    var today := StartOfDay(now);
    forall k | 0 <= k < days
      ensures DatesOf(days, now)[k] % DayMs == 0
    {
      DivModUnique(today, DayMs, today / DayMs, 0);
      DivModUnique(DatesOf(days, now)[k], DayMs, today / DayMs - (days - 1 - k), 0);
    }
  }

  /** A task lands in the bucket of at most one day for each event. */
  lemma AtMostOneBucket(tasks: seq<Task>, days: nat, now: int, e: Event, t: Task, j: nat, k: nat)
    requires j < k < days
    ensures var d := DatesOf(days, now);
      !(Happened(e, d[j], d[j] + DayMs)(t) && Happened(e, d[k], d[k] + DayMs)(t))
  {
  }

  /** Bucket `k` of a series counts the event on day `k`. */
  lemma CountsAt(tasks: seq<Task>, days: nat, now: int, e: Event, k: nat)
    requires k < days
    ensures var d := DatesOf(days, now)[k];
      Counts(ActivityOf(tasks, days, now), e)[k] == Count(tasks, Happened(e, d, d + DayMs))
  {
  }

  /** Two adjacent periods count what their union counts. */
  lemma HappenedSplit(tasks: seq<Task>, e: Event, lo: int, mid: int, hi: int)
    requires lo <= mid <= hi
    ensures Count(tasks, Happened(e, lo, mid)) + Count(tasks, Happened(e, mid, hi)) == Count(tasks, Happened(e, lo, hi))
  {
    CountDisjointUnion(tasks, Happened(e, lo, mid), Happened(e, mid, hi), Happened(e, lo, hi));
  }

  /** The counts of `days` consecutive days from midnight `first`. */
  function DayCounts(tasks: seq<Task>, first: int, days: nat, e: Event): seq<int>
  {
    seq(days, k requires 0 <= k < days => Count(tasks, Happened(e, first + k * DayMs, first + k * DayMs + DayMs)))
  }

  /** The first midnight of the window. */
  function WindowStart(days: nat, now: int): (first: int)
    ensures first % DayMs == 0
  {
    var today := StartOfDay(now);
    DivModUnique(today, DayMs, today / DayMs, 0);
    DivModUnique(today - (days - 1) * DayMs, DayMs, today / DayMs - (days - 1), 0);
    today - (days - 1) * DayMs
  }

  lemma SeriesAreDayCounts(tasks: seq<Task>, days: nat, now: int, e: Event)
    ensures Counts(ActivityOf(tasks, days, now), e) == DayCounts(tasks, WindowStart(days, now), days, e)
  {
    var first := WindowStart(days, now);
    forall k | 0 <= k < days
      ensures Counts(ActivityOf(tasks, days, now), e)[k] == DayCounts(tasks, first, days, e)[k]
    {
      CountsAt(tasks, days, now, e, k);
      assert DatesOf(days, now)[k] == first + k * DayMs;
    }
  }

  /** Summing the first `k` day counts counts the tasks whose event falls
      in those `k` days. */
  lemma PrefixCounts(tasks: seq<Task>, first: int, days: nat, e: Event, k: nat)
    requires k <= days
    ensures IntSum(DayCounts(tasks, first, days, e)[..k]) == Count(tasks, Happened(e, first, first + k * DayMs))
  {
    DayCountsAreSteps(tasks, first, days, e);
    PrefixSumsTelescope(DayCounts(tasks, first, days, e), CountBefore(tasks, e, first), k);
  }

  /** The tasks with the event between midnight `first` and `j` days later. */
  function CountBefore(tasks: seq<Task>, e: Event, first: int): int -> int
  {
    (j: int) => Count(tasks, Happened(e, first, first + j * DayMs))
  }

  /** Day `j`'s count is the step from `j` to `j + 1` days of counting. */
  lemma DayCountsAreSteps(tasks: seq<Task>, first: int, days: nat, e: Event)
    ensures CountBefore(tasks, e, first)(0) == 0
    ensures forall j :: 0 <= j < days ==>
      CountBefore(tasks, e, first)(j) + DayCounts(tasks, first, days, e)[j] == CountBefore(tasks, e, first)(j + 1)
  {
    CountZero(tasks, Happened(e, first, first + 0 * DayMs));
    forall j | 0 <= j < days
      ensures CountBefore(tasks, e, first)(j) + DayCounts(tasks, first, days, e)[j] == CountBefore(tasks, e, first)(j + 1)
    {
      NextDayCount(tasks, e, first, j);
    }
  }

  /** The first `k + 1` days count what the first `k` days and day `k` count. */
  lemma NextDayCount(tasks: seq<Task>, e: Event, first: int, k: nat)
    ensures Count(tasks, Happened(e, first, first + k * DayMs))
          + Count(tasks, Happened(e, first + k * DayMs, first + k * DayMs + DayMs))
         == Count(tasks, Happened(e, first, first + (k + 1) * DayMs))
  {
    assert first + k * DayMs + DayMs == first + (k + 1) * DayMs;
    HappenedSplit(tasks, e, first, first + k * DayMs, first + (k + 1) * DayMs);
  }

  /** Gap-free: the buckets together count exactly the tasks created (or
      completed) from the first midnight of the window to the end of today. */
  lemma SeriesCoversWindow(tasks: seq<Task>, days: nat, now: int, e: Event)
    ensures IntSum(Counts(ActivityOf(tasks, days, now), e))
         == Count(tasks, Happened(e, WindowStart(days, now), StartOfDay(now) + DayMs))
  {
    var first := WindowStart(days, now);
    var s := DayCounts(tasks, first, days, e);
    SeriesAreDayCounts(tasks, days, now, e);
    assert s[..days] == s;
    PrefixCounts(tasks, first, days, e, days);
    assert first + days * DayMs == StartOfDay(now) + DayMs;
  }

  /** Only completed tasks are counted as completions: the completed series
      never adds up to more than the completed tasks. */
  lemma CompletionsAreCompletedTasks(tasks: seq<Task>, days: nat, now: int)
    ensures IntSum(CompletedByDay(ActivityOf(tasks, days, now))) <= Count(tasks, IsCompleted)
  {
    var window := Happened(Completion, WindowStart(days, now), StartOfDay(now) + DayMs);
    SeriesCoversWindow(tasks, days, now, Completion);
    assert IntSum(CompletedByDay(ActivityOf(tasks, days, now))) == Count(tasks, window);
    forall i | 0 <= i < |tasks|
      ensures window(tasks[i]) ==> IsCompleted(tasks[i])
    {
    }
    CountMonotone(tasks, window, IsCompleted);
  }

  /** The last backlog value is the window's creations minus its completions. */
  lemma BacklogIsNetWindowActivity(tasks: seq<Task>, days: nat, now: int)
    requires days > 0
    ensures var a := ActivityOf(tasks, days, now);
      var first := WindowStart(days, now);
      BacklogByDay(CreatedByDay(a), CompletedByDay(a))[days - 1]
        == Count(tasks, Happened(Creation, first, StartOfDay(now) + DayMs))
         - Count(tasks, Happened(Completion, first, StartOfDay(now) + DayMs))
  {
    var a := ActivityOf(tasks, days, now);
    assert CreatedByDay(a)[..days] == CreatedByDay(a);
    assert CompletedByDay(a)[..days] == CompletedByDay(a);
    SeriesCoversWindow(tasks, days, now, Creation);
    SeriesCoversWindow(tasks, days, now, Completion);
  }
}

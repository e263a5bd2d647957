/** The status counts (`taskMetrics`) and due-date buckets (`tasksByDueDate`)
    of the analytics report. */
module TaskMetrics {
  import opened Numeric
  import opened Sequences
  import opened Snapshot

  datatype Metrics = Metrics(total: nat, completed: nat, incomplete: nat, archived: nat)

  function IsOpen(t: Task): bool { !t.completed }
  function IsIncomplete(t: Task): bool { !t.completed && !t.archived }
  function IsArchived(t: Task): bool { t.archived }
  function IsArchivedOpen(t: Task): bool { t.archived && !t.completed }

  /** `taskMetrics`: every task, the completed ones, the ones neither
      completed nor archived, and the archived ones. Completed, incomplete
      and archived-but-open tasks make up all tasks, so in particular
      `completed + incomplete <= total`. */
  function MetricsOf(tasks: seq<Task>): (m: Metrics)
    ensures m.total == |tasks|
    ensures m.completed + m.incomplete + Count(tasks, IsArchivedOpen) == m.total
  {
    CountComplement(tasks, IsCompleted, IsOpen);
    CountDisjointUnion(tasks, IsIncomplete, IsArchivedOpen, IsOpen);
    Metrics(|tasks|, Count(tasks, IsCompleted), Count(tasks, IsIncomplete), Count(tasks, IsArchived))
  }

  // ---------------------------------------------------------------------------
  // Due-date buckets

  datatype DueBuckets = DueBuckets(overdue: nat, dueToday: nat, dueThisWeek: nat, dueLater: nat, noDueDate: nat)

  function Overdue(today: int): Task -> bool
  {
    (t: Task) => t.dueDate.Some? && t.dueDate.value < today && !t.completed
  }

  function DueToday(today: int): Task -> bool
  {
    (t: Task) => t.dueDate.Some? && t.dueDate.value >= today && t.dueDate.value <= EndOfDay(today) && !t.completed
  }

  function DueThisWeek(today: int): Task -> bool
    requires today % DayMs == 0
  {
    (t: Task) => t.dueDate.Some? && t.dueDate.value > EndOfDay(today) && t.dueDate.value <= EndOfWeek(today) && !t.completed
  }

  function DueLater(today: int): Task -> bool
    requires today % DayMs == 0
  {
    (t: Task) => t.dueDate.Some? && t.dueDate.value > EndOfWeek(today) && !t.completed
  }

  function NoDueDate(t: Task): bool { t.dueDate.None? && !t.completed }

  /** `tasksByDueDate`, with `today` the start of the day of `now`. The five
      buckets partition the open tasks: their counts add up to the number of
      tasks not completed. */
  function DueBucketsOf(tasks: seq<Task>, now: int): (b: DueBuckets)
    ensures b.overdue + b.dueToday + b.dueThisWeek + b.dueLater + b.noDueDate == Count(tasks, IsOpen)
  {
    var today := StartOfDay(now);
    EndOfWeekIsNextSunday(today);
    CountDisjointUnion(tasks, Overdue(today), DueToday(today), Upto2(today));
    CountDisjointUnion(tasks, Upto2(today), DueThisWeek(today), Upto3(today));
    CountDisjointUnion(tasks, Upto3(today), DueLater(today), Upto4(today));
    CountDisjointUnion(tasks, Upto4(today), NoDueDate, IsOpen);
    DueBuckets(
      Count(tasks, Overdue(today)),
      Count(tasks, DueToday(today)),
      Count(tasks, DueThisWeek(today)),
      Count(tasks, DueLater(today)),
      Count(tasks, NoDueDate))
  }

  datatype Bucket = OverdueBucket | TodayBucket | WeekBucket | LaterBucket | NoDateBucket

  /** The reference classification: where an open task belongs, judged
      from its due date alone; completed tasks belong nowhere. */
  function BucketOf(t: Task, today: int): Option<Bucket>
    requires today % DayMs == 0
  {
    if t.completed then None
    else match t.dueDate
      case None => Some(NoDateBucket)
      case Some(d) =>
        if d < today then Some(OverdueBucket)
        else if d <= EndOfDay(today) then Some(TodayBucket)
        else if d <= EndOfWeek(today) then Some(WeekBucket)
        else Some(LaterBucket)
  }

  /** Each of the route's five filters selects exactly the tasks the
      classification puts in its bucket. */
  lemma FiltersMatchBuckets(t: Task, today: int)
    requires today % DayMs == 0
    ensures Overdue(today)(t) <==> BucketOf(t, today) == Some(OverdueBucket)
    ensures DueToday(today)(t) <==> BucketOf(t, today) == Some(TodayBucket)
    ensures DueThisWeek(today)(t) <==> BucketOf(t, today) == Some(WeekBucket)
    ensures DueLater(today)(t) <==> BucketOf(t, today) == Some(LaterBucket)
    ensures NoDueDate(t) <==> BucketOf(t, today) == Some(NoDateBucket)
  {
    EndOfWeekIsNextSunday(today);
  }

  function Upto2(today: int): Task -> bool
  {
    (t: Task) => Overdue(today)(t) || DueToday(today)(t)
  }

  function Upto3(today: int): Task -> bool
    requires today % DayMs == 0
  {
    (t: Task) => Upto2(today)(t) || DueThisWeek(today)(t)
  }

  function Upto4(today: int): Task -> bool
    requires today % DayMs == 0
  {
    (t: Task) => Upto3(today)(t) || DueLater(today)(t)
  }

  /** Completed tasks are counted in no bucket: completing a task removes
      it from every bucket count. */
  lemma CompletedInNoBucket(t: Task, now: int)
    requires t.completed
    ensures var today := StartOfDay(now);
      !Overdue(today)(t) && !DueToday(today)(t) && !DueThisWeek(today)(t) && !DueLater(today)(t) && !NoDueDate(t)
  {
  }
}

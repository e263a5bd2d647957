/** The data the analytics route reads from the database, and its calendar.
    Times are local-time milliseconds since the epoch; a day is a fixed
    86 400 000 ms, so daylight-saving shifts are not represented. Calendar
    dates are day numbers (milliseconds divided by the length of a day). */
module Snapshot {
  import opened Numeric

  const DayMs: int := 86400000

  /** A project task as the route uses it. `dueDate` is `None` when the task
      has none; `assignedTo` is the project-member id of the assignee. */
  datatype Task = Task(
    id: string,
    completed: bool,
    archived: bool,
    dueDate: Option<int>,
    createdAt: int,
    updatedAt: int,
    assignedTo: Option<string>)

  function IsCompleted(t: Task): bool { t.completed }

  /** A project member: its own id, the user it belongs to and that user's name. */
  datatype Member = Member(id: string, userId: string, name: string)

  /** The length of the window in days: 7 for "7days", 30 for "30days" and
      14 for any other value, a missing parameter included. */
  function WindowDays(timeRange: Option<string>): (days: nat)
    ensures days == 7 <==> timeRange == Some("7days")
    ensures days == 30 <==> timeRange == Some("30days")
    ensures days == 7 || days == 14 || days == 30
  {
    match timeRange
    case Some(r) => if r == "7days" then 7 else if r == "30days" then 30 else 14
    case None => 14
  }

  /** `setHours(0, 0, 0, 0)`: midnight at the start of the day of `t`. */
  function StartOfDay(t: int): (d: int)
    ensures d <= t < d + DayMs
    ensures d % DayMs == 0
  {
    t - t % DayMs
  }

  /** `setHours(23, 59, 59, 999)`: the last millisecond of the day of `t`. */
  function EndOfDay(t: int): (e: int)
    ensures t <= e < t + DayMs
    ensures e == StartOfDay(t) + DayMs - 1
  {
    StartOfDay(t) + DayMs - 1
  }

  /** The calendar date of `t`, as a day number. */
  function DayNumber(t: int): int
  {
    t / DayMs
  }

  /** `getDay()`: 0 for Sunday to 6 for Saturday; day 0 (1 January 1970)
      was a Thursday. */
  function Weekday(t: int): (w: nat)
    ensures w < 7
  {
    (DayNumber(t) + 4) % 7
  }

  /** `endOfWeek`: today's date moved forward by `7 - getDay()` days, which
      is the coming Sunday at midnight (a full week ahead on a Sunday). */
  function EndOfWeek(today: int): (e: int)
    requires today % DayMs == 0
    ensures e == today + (7 - Weekday(today)) * DayMs
  {
    today + (7 - Weekday(today)) * DayMs
  }

  /** The end of the week falls after the end of today, at most a week out,
      and on a Sunday. */
  lemma EndOfWeekIsNextSunday(today: int)
    requires today % DayMs == 0
    ensures EndOfDay(today) < EndOfWeek(today) <= today + 7 * DayMs
    ensures EndOfWeek(today) % DayMs == 0
    ensures Weekday(EndOfWeek(today)) == 0
  {
    var d := DayNumber(today);
    var w := Weekday(today);
    var e := EndOfWeek(today);
    DivModUnique(today, DayMs, d, 0);
    assert today == d * DayMs;
    assert e == (d + 7 - w) * DayMs;
    DivModUnique(e, DayMs, d + 7 - w, 0);
    assert DayNumber(e) == d + 7 - w;
    var q := (d + 4) / 7;
    assert d + 4 == q * 7 + w;
    assert DayNumber(e) + 4 == (q + 1) * 7;
    DivModUnique(DayNumber(e) + 4, 7, q + 1, 0);
  }
}

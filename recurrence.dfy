/** `calculateNextRunTime` of `service/TaskScheduler.kt`: the next run of a
    task, found by stepping a calendar forward from `scheduledTime` an hour
    or a day at a time.  The time zone has a fixed offset and a day is
    always `DAY` long, so adding a calendar day or hour adds `DAY` or `HOUR`
    milliseconds.  `now` is a parameter. */
module Recurrence {
  import opened Wrappers
  import opened Text
  import opened Clock
  import opened TaskModel

  /** `k` steps of length `step` after `start`. */
  function At(start: int, k: int, step: int): int {
    start + k * step
  }

  /** The number of steps after which `start` has first moved past `now`:
      none when it already lies after `now`. */
  function StepsPast(start: int, now: int, step: int): (k: nat)
    requires step > 0
    ensures At(start, k, step) > now
    ensures forall j :: 0 <= j < k ==> At(start, j, step) <= now
  {
    if start > now then 0
    else
      var q := (now - start) / step;
      assert now - start == q * step + (now - start) % step;
      assert At(start, q + 1, step) == start + q * step + step;
      assert forall j :: 0 <= j <= q ==> At(start, j, step) <= now by {
        forall j | 0 <= j <= q
          ensures At(start, j, step) <= now
        {
          MulMonotone(j, q, step);
        }
      }
      q + 1
  }

  /** Some day in the list is a weekday, 1..7. */
  predicate HasWeekday(days: seq<int>) {
    exists i :: 0 <= i < |days| && 1 <= days[i] <= 7
  }

  /** Within any seven consecutive days every weekday occurs. */
  lemma WeekHasEvery(t: int, w: int)
    requires 1 <= w <= 7
    ensures exists e :: 0 <= e < 7 && Weekday(At(t, e, DAY)) == w
  {
    var v := Weekday(t);
    var e := (w - v) % 7;
    WeekdayAfterDays(t, e);
    assert At(t, e, DAY) == t + e * DAY;
    DivModUnique(v - 1 + e, 7, (v - 1 + e) / 7, w - 1);
  }

  /** The first of the days `d`, `d + 1`, ... 6 after `t` whose weekday is in
      `days`. */
  function DaysToMatch(t: int, days: seq<int>, d: nat): (r: nat)
    requires d <= 7 && exists e :: d <= e < 7 && Weekday(At(t, e, DAY)) in days
    ensures d <= r < 7 && Weekday(At(t, r, DAY)) in days
    ensures forall e :: d <= e < r ==> Weekday(At(t, e, DAY)) !in days
    decreases 7 - d
  {
    if Weekday(At(t, d, DAY)) in days then d else DaysToMatch(t, days, d + 1)
  }

  /** The number of days after `start` of the first time that lies after
      `now` and falls on a weekday in `days`. */
  function WeeklySteps(start: int, now: int, days: seq<int>): (k: nat)
    requires HasWeekday(days)
    ensures At(start, k, DAY) > now && Weekday(At(start, k, DAY)) in days
    ensures forall j :: 0 <= j < k ==> At(start, j, DAY) <= now || Weekday(At(start, j, DAY)) !in days
  {
    var k0 := StepsPast(start, now, DAY);
    var t0 := At(start, k0, DAY);
    var i :| 0 <= i < |days| && 1 <= days[i] <= 7;
    WeekHasEvery(t0, days[i]);
    var d := DaysToMatch(t0, days, 0);
    assert forall e :: At(t0, e, DAY) == At(start, k0 + e, DAY);
    assert forall j :: k0 <= j < k0 + d ==> Weekday(At(start, j, DAY)) !in days by {
      forall j | k0 <= j < k0 + d
        ensures Weekday(At(start, j, DAY)) !in days
      {
        assert At(start, j, DAY) == At(t0, j - k0, DAY);
      }
    }
    k0 + d
  }

  /** The loop in the WEEKLY case ends exactly when some day in the list is
      a weekday. */
  predicate Schedulable(task: Task) {
    task.taskType == SCHEDULED && task.frequency == Some(WEEKLY) ==> HasWeekday(ParseDays(task.daysOfWeek))
  }

  /** The next run of `task` at time `now`: ONE_TIME moves an hour on once
      if the time has passed; DAILY and HOURLY take the first day or hour
      step past `now`; WEEKLY takes the first day step past `now` on a
      listed weekday; a SCHEDULED task without frequency keeps its time. */
  function NextRun(task: Task, now: int): int
    requires Schedulable(task)
  {
    var start := task.scheduledTime;
    match task.taskType
    case ONE_TIME => if start <= now then start + HOUR else start
    case SCHEDULED =>
      match task.frequency
      case None => start
      case Some(DAILY) => At(start, StepsPast(start, now, DAY), DAY)
      case Some(WEEKLY) => At(start, WeeklySteps(start, now, ParseDays(task.daysOfWeek)), DAY)
      case Some(HOURLY) => At(start, StepsPast(start, now, HOUR), HOUR)
  }

  /** The step length of a recurring frequency other than WEEKLY. */
  function StepOf(f: ScheduleFrequency): int {
    if f == HOURLY then HOUR else DAY
  }

  /** A DAILY or HOURLY task runs next at the least `scheduledTime + k·step`
      after `now`, which is `scheduledTime` itself when that lies ahead. */
  lemma RecurringNextRun(task: Task, now: int)
    requires task.taskType == SCHEDULED && task.frequency in {Some(DAILY), Some(HOURLY)}
    ensures var step := StepOf(task.frequency.value);
            && (exists k: nat :: NextRun(task, now) == At(task.scheduledTime, k, step)
                  && (forall j :: 0 <= j < k ==> At(task.scheduledTime, j, step) <= now))
            && NextRun(task, now) > now
            && (task.scheduledTime > now ==> NextRun(task, now) == task.scheduledTime)
  {
    var step := StepOf(task.frequency.value);
    var k := StepsPast(task.scheduledTime, now, step);
    assert NextRun(task, now) == At(task.scheduledTime, k, step);
  }

  /** A WEEKLY task runs next at the least `scheduledTime + k·DAY` that lies
      after `now` and falls on a listed weekday. */
  lemma WeeklyNextRun(task: Task, now: int)
    requires task.taskType == SCHEDULED && task.frequency == Some(WEEKLY) && Schedulable(task)
    ensures var days := ParseDays(task.daysOfWeek);
            exists k: nat :: NextRun(task, now) == At(task.scheduledTime, k, DAY)
              && NextRun(task, now) > now && Weekday(NextRun(task, now)) in days
              && (forall j :: 0 <= j < k ==>
                    At(task.scheduledTime, j, DAY) <= now || Weekday(At(task.scheduledTime, j, DAY)) !in days)
  {
    var k := WeeklySteps(task.scheduledTime, now, ParseDays(task.daysOfWeek));
    assert NextRun(task, now) == At(task.scheduledTime, k, DAY);
  }

  /** A recurring task's next run always lies after `now`. */
  lemma RecurringAfterNow(task: Task, now: int)
    requires task.taskType == SCHEDULED && task.frequency.Some? && Schedulable(task)
    ensures NextRun(task, now) > now
  {
  }

  /** The next run does not depend on when the task last ran or was last
      armed. */
  lemma NextRunIgnoresRunTimes(task: Task, now: int, lastRunAt: Option<int>, nextRunAt: Option<int>)
    requires Schedulable(task)
    ensures Schedulable(task.(lastRunAt := lastRunAt, nextRunAt := nextRunAt))
    ensures NextRun(task.(lastRunAt := lastRunAt, nextRunAt := nextRunAt), now) == NextRun(task, now)
  {
  }

  /** Without a listed weekday no day ever matches, so the WEEKLY loop does
      not end. */
  lemma WeeklyNeverMatches(start: int, days: seq<int>, k: int)
    requires !HasWeekday(days)
    ensures Weekday(At(start, k, DAY)) !in days
  {
  }

  /** A ONE_TIME task is moved on by one hour only, so its next run can
      still lie in the past. */
  lemma OneTimeMayStayPast(task: Task, now: int)
    requires task.taskType == ONE_TIME && task.scheduledTime + HOUR <= now
    ensures NextRun(task, now) == task.scheduledTime + HOUR <= now
  {
  }

  /** The DAILY and HOURLY loop: step while the calendar is not past `now`. */
  method StepPast(start: int, now: int, step: int) returns (t: int)
    requires step > 0
    ensures t == At(start, StepsPast(start, now, step), step)
  {
    t := start;
    ghost var k := 0;
    while t <= now
      invariant 0 <= k <= StepsPast(start, now, step) && t == At(start, k, step)
      decreases StepsPast(start, now, step) - k
    {
      assert At(start, k + 1, step) == t + step;
      t := t + step;
      k := k + 1;
    }
  }

  /** The WEEKLY loop: step a day at a time while the calendar is not past
      `now` or its weekday is not listed. */
  method StepToWeekday(start: int, now: int, days: seq<int>) returns (t: int)
    requires HasWeekday(days)
    ensures t == At(start, WeeklySteps(start, now, days), DAY)
  {
    t := start;
    ghost var k := 0;
    while t <= now || Weekday(t) !in days
      invariant 0 <= k <= WeeklySteps(start, now, days) && t == At(start, k, DAY)
      decreases WeeklySteps(start, now, days) - k
    {
      t := t + DAY;
      k := k + 1;
    }
  }

  /** `calculateNextRunTime`: the calendar starts at `scheduledTime` and is
      moved on an hour or a day at a time. */
  method CalculateNextRunTime(task: Task, now: int) returns (r: int)
    requires Schedulable(task)
    ensures r == NextRun(task, now)
  {
    r := task.scheduledTime;
    match task.taskType {
      case ONE_TIME =>
        if r <= now {
          r := r + HOUR;
        }
      case SCHEDULED =>
        match task.frequency {
          case Some(DAILY) =>
            r := StepPast(r, now, DAY);
          case Some(WEEKLY) =>
            var days := ParseDays(task.daysOfWeek);
            r := StepToWeekday(r, now, days);
          case Some(HOURLY) =>
            r := StepPast(r, now, HOUR);
          case None =>
        }
    }
  }
}

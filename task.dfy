/** The task entities of `data/model/Task.kt`, the two display formatters, and
    the comma-separated encoding of `daysOfWeek` that the scheduler and the
    task editor share. */
module TaskModel {
  import opened Wrappers
  import opened Text
  import Clock

  datatype TaskType = SCHEDULED | ONE_TIME

  datatype TaskStatus = ACTIVE | PAUSED | COMPLETED | DISABLED

  datatype ScheduleFrequency = DAILY | WEEKLY | HOURLY

  /** A stored task. The Kotlin field `type` is `taskType` here; `createdAt`
      defaults to the clock in Kotlin and is passed explicitly. */
  datatype Task = Task(
    id: int := 0,
    title: string,
    prompt: string,
    taskType: TaskType,
    frequency: Option<ScheduleFrequency> := None,
    scheduledTime: int,
    daysOfWeek: string := "",
    status: TaskStatus := ACTIVE,
    lastRunAt: Option<int> := None,
    nextRunAt: Option<int> := None,
    createdAt: int,
    source: string := "manual")

  /** One recorded run of a task. */
  datatype TaskExecution = TaskExecution(
    id: int := 0,
    taskId: int,
    taskTitle: string,
    executedAt: int,
    prompt: string,
    response: string,
    success: bool,
    errorMessage: Option<string> := None)

  /** The defaults a `Task` and a `TaskExecution` are created with. */
  lemma RecordDefaults(title: string, prompt: string, ty: TaskType, at: int, now: int)
    ensures var t := Task(title := title, prompt := prompt, taskType := ty, scheduledTime := at, createdAt := now);
            && t.id == 0 && t.frequency == None && t.daysOfWeek == ""
            && t.status == ACTIVE && t.lastRunAt == None && t.nextRunAt == None
            && t.source == "manual"
    ensures var e := TaskExecution(taskId := 1, taskTitle := title, executedAt := now,
                                   prompt := prompt, response := "", success := true);
            e.id == 0 && e.errorMessage == None
  {
  }

  // ---- display ----

  /** The number a two-digit string shows. */
  function TwoDigitValue(s: string): int
    requires |s| == 2
  {
    (s[0] as int - '0' as int) * 10 + (s[1] as int - '0' as int)
  }

  /** `getDisplayTime()`: "HH:MM" of `scheduledTime` in local time. */
  function DisplayTime(task: Task): (s: string)
    ensures |s| == 5 && s[2] == ':'
    ensures IsDigit(s[0]) && IsDigit(s[1]) && IsDigit(s[3]) && IsDigit(s[4])
    ensures TwoDigitValue(s[..2]) == Clock.HourOfDay(task.scheduledTime) < 24
    ensures TwoDigitValue(s[3..]) == Clock.MinuteOfHour(task.scheduledTime) < 60
  {
    Pad2(Clock.HourOfDay(task.scheduledTime)) + ":" + Pad2(Clock.MinuteOfHour(task.scheduledTime))
  }

  /** `getDisplayDate()`: "MM/DD" of `scheduledTime` in local time, the month
      counted from 1 (`Calendar.MONTH` + 1). */
  function DisplayDate(task: Task): (s: string)
    ensures |s| == 5 && s[2] == '/'
    ensures IsDigit(s[0]) && IsDigit(s[1]) && IsDigit(s[3]) && IsDigit(s[4])
    ensures var d := Clock.CivilFromDays(Clock.EpochDay(task.scheduledTime));
            && TwoDigitValue(s[..2]) == d.month && 1 <= d.month <= 12
            && TwoDigitValue(s[3..]) == d.day && 1 <= d.day <= Clock.DaysInMonth(d.year, d.month)
  {
    var d := Clock.CivilFromDays(Clock.EpochDay(task.scheduledTime));
    Pad2(d.month) + "/" + Pad2(d.day)
  }

  // ---- the daysOfWeek column ----

  /** `mapNotNull { it.toIntOrNull() }`. */
  function ParseAll(parts: seq<string>): (r: seq<Int32>)
    ensures |r| <= |parts|
  {
    if parts == [] then []
    else match ParseInt(parts[0])
      case Some(v) => [v] + ParseAll(parts[1..])
      case None => ParseAll(parts[1..])
  }

  /** `daysOfWeek.split(",").mapNotNull { it.toIntOrNull() }`. */
  function ParseDays(s: string): (r: seq<Int32>)
    ensures ',' !in s ==> r == if ParseInt(s).Some? then [ParseInt(s).value] else []
  {
    if ',' !in s then SplitNoSep(s, ','); ParseAll(Split(s, ','))
    else ParseAll(Split(s, ','))
  }

  function DayStrings(days: seq<Int32>): (r: seq<string>)
    ensures |r| == |days|
    ensures forall i :: 0 <= i < |r| ==> r[i] == IntToString(days[i])
  {
    if days == [] then [] else [IntToString(days[0])] + DayStrings(days[1..])
  }

  /** `selectedDays.joinToString(",")`. */
  function JoinDays(days: seq<Int32>): (r: string)
    ensures r == "" <==> days == []
    ensures |days| == 1 ==> r == IntToString(days[0])
    ensures |days| >= 2 ==> ',' in r
  {
    var parts := DayStrings(days);
    if |parts| >= 2 then
      assert Join(parts, ',')[|parts[0]|] == ',';
      Join(parts, ',')
    else Join(parts, ',')
  }

  lemma {:induction false} ParseAllDayStrings(days: seq<Int32>)
    ensures ParseAll(DayStrings(days)) == days
  {
    if days != [] {
      ParseIntToString(days[0]);
      ParseAllDayStrings(days[1..]);
      assert DayStrings(days)[1..] == DayStrings(days[1..]);
    }
  }

  /** Parsing what was joined gives back the day list, the empty list included. */
  lemma ParseJoinDays(days: seq<Int32>)
    ensures ParseDays(JoinDays(days)) == days
  {
    if days == [] {
      assert ParseInt("") == None;
    } else {
      var parts := DayStrings(days);
      forall i | 0 <= i < |parts| ensures ',' !in parts[i] {
        IntToStringNoComma(days[i]);
      }
      SplitJoin(parts, ',');
      ParseAllDayStrings(days);
    }
  }
}

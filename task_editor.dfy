/** The rules of the task editor in `ui/tasks/TaskEditScreen.kt`, without its
    layout: the form's state (name, prompt, frequency, hour, minute and the
    selected weekdays), the callbacks that change it, and the record handed
    to `onSave`.  The editor works on a `ScheduledTask` record that no file
    of the app defines (`data/model/Task.kt` defines only `Task`).  This
    record is reconstructed from the fields the screen reads and writes (a
    `name`, an `hour`, a `minute`, and a ONCE frequency among
    `ScheduleFrequency`), and is not reconciled with `Task`. */
module TaskEditor {
  import opened Wrappers
  import opened Text
  import opened TaskModel

  /** The frequencies the editor offers. */
  datatype EditFrequency = DAILY | WEEKLY | HOURLY | ONCE

  /** The task record the editor reads and builds. */
  datatype ScheduledTask = ScheduledTask(
    id: int,
    name: string,
    prompt: string,
    frequency: EditFrequency,
    hour: Int32,
    minute: Int32,
    daysOfWeek: string,
    status: TaskStatus)

  /** The weekday chips: a label and the `Calendar.DAY_OF_WEEK` number it
      stands for, Monday first and Sunday (1) last. */
  const WeekDays: seq<(string, Int32)> :=
    [("周一", 2), ("周二", 3), ("周三", 4), ("周四", 5), ("周五", 6), ("周六", 7), ("周日", 1)]

  /** The day numbers of the chips. */
  function ChipDays(): (r: seq<Int32>)
    ensures |r| == |WeekDays|
    ensures forall i :: 0 <= i < |r| ==> r[i] == WeekDays[i].1
  {
    seq(|WeekDays|, i requires 0 <= i < |WeekDays| => WeekDays[i].1)
  }

  /** The chips cover every weekday exactly once: their seven numbers are
      distinct and are exactly 1..7. */
  lemma WeekDaysPermutation()
    ensures |ChipDays()| == 7 && NoDuplicates(ChipDays())
    ensures forall w :: 1 <= w <= 7 <==> w in ChipDays()
  {
    assert ChipDays() == [2, 3, 4, 5, 6, 7, 1];
  }

  /** The label of the chip for day number `d`, if there is one. */
  function DayLabel(d: Int32): (r: Option<string>)
    ensures r.Some? <==> 1 <= d <= 7
  {
    if d == 1 then Some("周日")
    else if 2 <= d <= 7 then Some(WeekDays[d - 2].0)
    else None
  }

  /** The labels the chips show ticked for a selection of days. */
  function DayLabels(days: seq<Int32>): (r: seq<string>)
    requires forall i :: 0 <= i < |days| ==> 1 <= days[i] <= 7
    ensures |r| == |days|
  {
    if days == [] then [] else [DayLabel(days[0]).value] + DayLabels(days[1..])
  }

  /** Every chip's label is the one `DayLabel` gives for its number. */
  lemma DayLabelOfChips(i: nat)
    requires i < |WeekDays|
    ensures DayLabel(WeekDays[i].1) == Some(WeekDays[i].0)
  {
  }

  // ---- the selected days ----

  /** The selection of a new task as written: `listOf(1, 2, 3, 4, 5)`. */
  const NewTaskDaysAsWritten: seq<Int32> := [1, 2, 3, 4, 5]

  /** The selection of a new task as evidently intended: the working week,
      Monday (2) to Friday (6).  The editor itself starts from
      `NewTaskDaysAsWritten`. */
  const NewTaskDays: seq<Int32> := [2, 3, 4, 5, 6]

  const WorkWeekLabels: seq<string> := ["周一", "周二", "周三", "周四", "周五"]

  /** As written, a new task starts with Sunday to Thursday ticked: Friday is
      missing and Sunday is in. */
  lemma NewTaskDaysAsWrittenShowSunday()
    ensures DayLabels(InitialDays(None)) == ["周日", "周一", "周二", "周三", "周四"]
    ensures DayLabels(InitialDays(None)) != WorkWeekLabels
  {
    assert DayLabels(InitialDays(None))[0] == "周日";
  }

  /** With Monday to Friday, the ticked chips are exactly the working week. */
  lemma NewTaskDaysShowWorkWeek()
    ensures DayLabels(NewTaskDays) == WorkWeekLabels
    ensures forall w :: w in NewTaskDays <==> 2 <= w <= 6
  {
  }

  /** The days ticked when the editor opens: those of the task's
      `daysOfWeek` that read as integers, or `listOf(1, 2, 3, 4, 5)` for a
      new task, which is Sunday to Thursday. */
  function InitialDays(task: Option<ScheduledTask>): (r: seq<Int32>)
    ensures task.None? ==> r == [1, 2, 3, 4, 5] && (forall w :: w in r <==> 1 <= w <= 5)
    ensures task.Some? && task.value.daysOfWeek == "" ==> r == []
  {
    match task
    case None => NewTaskDaysAsWritten
    case Some(t) =>
      assert Split("", ',') == [""] && ParseInt("") == None;
      ParseDays(t.daysOfWeek)
  }

  predicate NoDuplicates(days: seq<Int32>) {
    forall i, j :: 0 <= i < j < |days| ==> days[i] != days[j]
  }

  /** Kotlin's `list - x`: the list without the first occurrence of `x`. */
  function RemoveFirst(days: seq<Int32>, x: Int32): (r: seq<Int32>)
    ensures x !in days ==> r == days
    ensures x in days ==> |r| == |days| - 1
    ensures multiset(r) == multiset(days) - multiset{x}
  {
    if days == [] then []
    else if days[0] == x then
      assert days == [days[0]] + days[1..];
      days[1..]
    else
      assert days == [days[0]] + days[1..];
      [days[0]] + RemoveFirst(days[1..], x)
  }

  /** A chip's click: a ticked day is removed, an unticked one appended. */
  function ToggleDay(days: seq<Int32>, d: Int32): (r: seq<Int32>)
    ensures d in days ==> |r| == |days| - 1 && multiset(r) == multiset(days) - multiset{d}
    ensures d !in days ==> |r| == |days| + 1 && multiset(r) == multiset(days) + multiset{d}
  {
    if d in days then RemoveFirst(days, d) else days + [d]
  }

  /** On a list without repeats, a click flips whether `d` is ticked and
      leaves every other day as it was; the list stays without repeats. */
  lemma ToggleDayFlips(days: seq<Int32>, d: Int32, e: Int32)
    requires NoDuplicates(days)
    ensures var r := ToggleDay(days, d);
            && (d in r <==> d !in days)
            && (e != d ==> (e in r <==> e in days))
            && NoDuplicates(r)
  {
    var r := ToggleDay(days, d);
    assert forall x :: x in days <==> multiset(days)[x] > 0;
    assert forall x :: x in r <==> multiset(r)[x] > 0;
    if d in days {
      MultisetNoDuplicates(days, d);
      RemoveFirstNoDuplicates(days, d);
    } else {
      assert multiset(r) == multiset(days) + multiset{d};
      forall i, j | 0 <= i < j < |r|
        ensures r[i] != r[j]
      {
        if j == |days| {
          assert r[i] in days;
        }
      }
    }
  }

  /** In a list without repeats every value occurs at most once. */
  lemma MultisetNoDuplicates(days: seq<Int32>, x: Int32)
    requires NoDuplicates(days)
    ensures multiset(days)[x] <= 1
  {
    if days != [] {
      assert days == [days[0]] + days[1..];
      assert NoDuplicates(days[1..]);
      MultisetNoDuplicates(days[1..], x);
      if days[0] == x {
        assert x !in days[1..];
      }
    }
  }

  /** Removing a day from a list without repeats leaves one without
      repeats. */
  lemma RemoveFirstNoDuplicates(days: seq<Int32>, x: Int32)
    requires NoDuplicates(days)
    ensures NoDuplicates(RemoveFirst(days, x))
  {
    var r := RemoveFirst(days, x);
    forall y
      ensures multiset(r)[y] <= 1
    {
      MultisetNoDuplicates(days, y);
    }
    CountsAtMostOne(r);
  }

  /** A list in which every value occurs at most once has no repeats. */
  lemma {:induction false} CountsAtMostOne(s: seq<Int32>)
    requires forall y :: multiset(s)[y] <= 1
    ensures NoDuplicates(s)
  {
    if s != [] {
      var tail := s[1..];
      assert s == [s[0]] + tail;
      assert multiset(s) == multiset{s[0]} + multiset(tail);
      forall y
        ensures multiset(tail)[y] <= 1
      {
        assert multiset(tail)[y] <= multiset(s)[y];
      }
      CountsAtMostOne(tail);
      assert s[0] !in tail by {
        assert multiset(s)[s[0]] == 1 + multiset(tail)[s[0]] <= 1;
      }
      forall i, j | 0 <= i < j < |s|
        ensures s[i] != s[j]
      {
        assert s[j] == tail[j - 1] && tail[j - 1] in tail;
        if i > 0 {
          assert s[i] == tail[i - 1];
        }
      }
    }
  }

  /** The default selection of a new task has no repeats. */
  lemma InitialDaysNew()
    ensures NoDuplicates(InitialDays(None))
  {
    assert InitialDays(None) == [1, 2, 3, 4, 5];
  }

  // ---- hour and minute ----

  /** `coerceIn(lo, hi)`. */
  function CoerceIn(v: int, lo: int, hi: int): int
    requires lo <= hi
  {
    if v < lo then lo else if v > hi then hi else v
  }

  /** A field's new value after typing `input`: the number, brought into
      `lo..hi`, or the old value when the input is not an integer. */
  function ClampedInput(input: string, current: Int32, lo: Int32, hi: Int32): (r: Int32)
    requires lo <= hi
    ensures ParseInt(input).None? ==> r == current
    ensures ParseInt(input).Some? ==>
              && lo <= r <= hi
              && (lo <= ParseInt(input).value <= hi ==> r == ParseInt(input).value)
              && (ParseInt(input).value < lo ==> r == lo)
              && (ParseInt(input).value > hi ==> r == hi)
  {
    match ParseInt(input)
    case None => current
    case Some(v) => CoerceIn(v, lo, hi)
  }

  /** Typing back the text a field shows for a value already in range keeps
      that value: the hour shows `toString()`, the minute
      `toString().padStart(2, '0')`. */
  lemma RetypeKeeps(v: Int32, current: Int32, lo: Int32, hi: Int32)
    requires lo <= v <= hi
    ensures ClampedInput(IntToString(v), current, lo, hi) == v
    ensures 0 <= v ==> ClampedInput(PadStart(IntToString(v), 2, '0'), current, lo, hi) == v
  {
    ParseIntToString(v);
    if 0 <= v {
      ParseIntPadded(v);
    }
  }

  // ---- saving ----

  /** The save button is enabled only when both name and prompt hold a
      non-blank character. */
  predicate CanSave(name: string, prompt: string)
    ensures CanSave(name, prompt) <==> Trim(name) != [] && Trim(prompt) != []
  {
    TrimEmptyIffBlank(name);
    TrimEmptyIffBlank(prompt);
    !IsBlank(name) && !IsBlank(prompt)
  }

  /** The record built on save: the form's fields, the days joined with
      commas so that they parse back to the selection, and for a new task
      id 0 and status ACTIVE, for an edited one its own id and status. */
  function BuildTask(original: Option<ScheduledTask>, name: string, prompt: string, frequency: EditFrequency,
                     hour: Int32, minute: Int32, days: seq<Int32>): (t: ScheduledTask)
    ensures ParseDays(t.daysOfWeek) == days
    ensures t.name == name && t.prompt == prompt && t.frequency == frequency
    ensures t.hour == hour && t.minute == minute
    ensures original.None? ==> t.id == 0 && t.status == ACTIVE
    ensures original.Some? ==> t.id == original.value.id && t.status == original.value.status
  {
    ParseJoinDays(days);
    ScheduledTask(
      id := if original.Some? then original.value.id else 0,
      name := name,
      prompt := prompt,
      frequency := frequency,
      hour := hour,
      minute := minute,
      daysOfWeek := JoinDays(days),
      status := if original.Some? then original.value.status else ACTIVE)
  }

  /** Opening the editor on a task and saving it unchanged gives back its
      days, once they are in the joined form the editor writes. */
  lemma ReopenKeepsDays(task: ScheduledTask, days: seq<Int32>)
    requires task.daysOfWeek == JoinDays(days)
    ensures InitialDays(Some(task)) == days
  {
    ParseJoinDays(days);
  }

  /** The preset templates: name, prompt, frequency, hour and minute. */
  datatype Template = Template(name: string, prompt: string, frequency: EditFrequency, hour: Int32, minute: Int32)

  const Templates: seq<Template> := [
    Template("每日新闻摘要", "请总结今天的科技新闻，列出5条最重要的，每条用一句话概括。", EditFrequency.DAILY, 9, 0),
    Template("周报生成", "请帮我整理本周的工作内容，生成一份周报格式。", EditFrequency.WEEKLY, 18, 0),
    Template("代码审查提醒", "检查我最近的代码提交，列出可能存在的问题和改进建议。", EditFrequency.DAILY, 18, 30)
  ]

  /** The form state of one opened editor. */
  class EditorState {
    /** The task being edited, or none for a new one. */
    const original: Option<ScheduledTask>
    var name: string
    var prompt: string
    var frequency: EditFrequency
    var hour: Int32
    var minute: Int32
    var selectedDays: seq<Int32>

    /** The editor opened on `task`: its fields, or the defaults (empty
        texts, DAILY at 9:00, `listOf(1, 2, 3, 4, 5)`). */
    constructor (task: Option<ScheduledTask>)
      ensures original == task
      ensures name == (if task.Some? then task.value.name else "")
      ensures prompt == (if task.Some? then task.value.prompt else "")
      ensures frequency == (if task.Some? then task.value.frequency else EditFrequency.DAILY)
      ensures hour == (if task.Some? then task.value.hour else 9)
      ensures minute == (if task.Some? then task.value.minute else 0)
      ensures selectedDays == InitialDays(task)
      ensures task.None? ==> selectedDays == [1, 2, 3, 4, 5]
    {
      original := task;
      match task {
        case None =>
          name, prompt, frequency, hour, minute := "", "", EditFrequency.DAILY, 9, 0;
        case Some(t) =>
          name, prompt, frequency, hour, minute := t.name, t.prompt, t.frequency, t.hour, t.minute;
      }
      selectedDays := InitialDays(task);
    }

    /** The name field's `onValueChange`. */
    method OnNameInput(text: string)
      modifies this
      ensures name == text
      ensures prompt == old(prompt) && frequency == old(frequency)
      ensures hour == old(hour) && minute == old(minute) && selectedDays == old(selectedDays)
    {
      name := text;
    }

    /** The prompt field's `onValueChange`. */
    method OnPromptInput(text: string)
      modifies this
      ensures prompt == text
      ensures name == old(name) && frequency == old(frequency)
      ensures hour == old(hour) && minute == old(minute) && selectedDays == old(selectedDays)
    {
      prompt := text;
    }

    /** A frequency chip's click; the selected days are kept even when the
        weekday row is hidden. */
    method OnFrequencyChip(f: EditFrequency)
      modifies this
      ensures frequency == f
      ensures name == old(name) && prompt == old(prompt)
      ensures hour == old(hour) && minute == old(minute) && selectedDays == old(selectedDays)
    {
      frequency := f;
    }

    /** The hour field's `onValueChange`. */
    method OnHourInput(input: string)
      modifies this
      ensures hour == ClampedInput(input, old(hour), 0, 23)
      ensures ParseInt(input).Some? ==> 0 <= hour <= 23
      ensures minute == old(minute) && selectedDays == old(selectedDays)
      ensures name == old(name) && prompt == old(prompt) && frequency == old(frequency)
    {
      match ParseInt(input) {
        case Some(v) => hour := CoerceIn(v, 0, 23);
        case None =>
      }
    }

    /** The minute field's `onValueChange`. */
    method OnMinuteInput(input: string)
      modifies this
      ensures minute == ClampedInput(input, old(minute), 0, 59)
      ensures ParseInt(input).Some? ==> 0 <= minute <= 59
      ensures hour == old(hour) && selectedDays == old(selectedDays)
      ensures name == old(name) && prompt == old(prompt) && frequency == old(frequency)
    {
      match ParseInt(input) {
        case Some(v) => minute := CoerceIn(v, 0, 59);
        case None =>
      }
    }

    /** A quick-time chip (9:00, 12:00, 18:00). */
    method OnQuickTime(h: Int32)
      requires h == 9 || h == 12 || h == 18
      modifies this
      ensures hour == h && minute == 0
      ensures selectedDays == old(selectedDays)
      ensures name == old(name) && prompt == old(prompt) && frequency == old(frequency)
    {
      hour := h;
      minute := 0;
    }

    /** A weekday chip's click. */
    method OnDayChip(d: Int32)
      modifies this
      ensures selectedDays == ToggleDay(old(selectedDays), d)
      ensures NoDuplicates(old(selectedDays)) ==>
                && NoDuplicates(selectedDays)
                && (d in selectedDays <==> d !in old(selectedDays))
                && (forall e :: e != d ==> (e in selectedDays <==> e in old(selectedDays)))
      ensures hour == old(hour) && minute == old(minute)
      ensures name == old(name) && prompt == old(prompt) && frequency == old(frequency)
    {
      if NoDuplicates(selectedDays) {
        forall e | e != d
          ensures e in ToggleDay(selectedDays, d) <==> e in selectedDays
        {
          ToggleDayFlips(selectedDays, d, e);
        }
        ToggleDayFlips(selectedDays, d, d);
      }
      if d in selectedDays {
        selectedDays := RemoveFirst(selectedDays, d);
      } else {
        selectedDays := selectedDays + [d];
      }
    }

    /** A preset template's click: it fills in everything but the days. */
    method OnTemplate(i: nat)
      requires i < |Templates|
      modifies this
      ensures name == Templates[i].name && prompt == Templates[i].prompt
      ensures frequency == Templates[i].frequency && hour == Templates[i].hour && minute == Templates[i].minute
      ensures selectedDays == old(selectedDays)
    {
      var t := Templates[i];
      name, prompt, frequency, hour, minute := t.name, t.prompt, t.frequency, t.hour, t.minute;
    }

    /** The save button: nothing while it is disabled, otherwise the record
        handed to `onSave`, whose days parse back to the selection. */
    method Save() returns (saved: Option<ScheduledTask>)
      ensures saved.Some? <==> CanSave(name, prompt)
      ensures saved.Some? ==>
                && saved.value == BuildTask(original, name, prompt, frequency, hour, minute, selectedDays)
                && ParseDays(saved.value.daysOfWeek) == selectedDays
                && (original.None? ==> saved.value.id == 0 && saved.value.status == ACTIVE)
                && (original.Some? ==> saved.value.id == original.value.id
                                       && saved.value.status == original.value.status)
    {
      if !CanSave(name, prompt) {
        return None;
      }
      var t := ScheduledTask(
        id := if original.Some? then original.value.id else 0,
        name := name,
        prompt := prompt,
        frequency := frequency,
        hour := hour,
        minute := minute,
        daysOfWeek := JoinDays(selectedDays),
        status := if original.Some? then original.value.status else ACTIVE);
      saved := Some(t);
    }
  }
}

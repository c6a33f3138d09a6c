/** `service/TaskScheduler.kt`: arming, cancelling and running tasks.  The
    alarm service is a table from task id to trigger time (one pending
    broadcast per task id); an alarm is one-shot, so it leaves the table
    when it fires.  The notification service is a log of the notifications
    shown.  Posting work to a coroutine scope is modelled as
    doing it at once. */
module Scheduling {
  import opened Wrappers
  import opened Text
  import opened Tables
  import opened Models
  import opened TaskModel
  import opened TaskDatabase
  import opened ChatApi
  import opened Chat
  import opened Settings
  import opened Recurrence

  /** Pending alarms: task id to trigger time.  A fired alarm is no longer
      pending. */
  type Alarms = map<int, int>

  datatype Notification = Notification(title: string, text: string)

  // ---- what the operations do to the state ----

  /** `scheduleTask`: a task that is not ACTIVE only has its alarm
      cancelled; an ACTIVE one is armed at its next run and stored with
      that `nextRunAt`, unless arming is refused (no exact-alarm
      permission), in which case nothing changes. */
  function ScheduleEffect(alarms: Alarms, rows: seq<Task>, task: Task, now: int, exact: bool): (r: (Alarms, seq<Task>))
    requires task.status == ACTIVE ==> Schedulable(task)
    ensures |r.1| == |rows|
    ensures task.status != ACTIVE ==> task.id !in r.0
    ensures task.status == ACTIVE && exact ==> task.id in r.0
    ensures forall k :: k != task.id ==> (k in r.0 <==> k in alarms)
    ensures forall k :: k != task.id && k in r.0 ==> r.0[k] == alarms[k]
  {
    if task.status != ACTIVE then (alarms - {task.id}, rows)
    else if !exact then (alarms, rows)
    else
      var next := NextRun(task, now);
      (alarms[task.id := next], ReplaceId(rows, TaskId, task.(nextRunAt := Some(next))))
  }

  /** A task that is not ACTIVE loses its alarm, every other alarm stays, and
      the task table is not written. */
  lemma ScheduleInactive(alarms: Alarms, rows: seq<Task>, task: Task, now: int, exact: bool)
    requires task.status != ACTIVE
    ensures var r := ScheduleEffect(alarms, rows, task, now, exact);
            && task.id !in r.0 && r.1 == rows
            && (forall k :: k != task.id ==> (k in r.0 <==> k in alarms))
            && (forall k :: k in r.0 ==> r.0[k] == alarms[k])
  {
  }

  /** An ACTIVE task present in the table ends with exactly one alarm under
      its id, at its next run, and its row carries that time as `nextRunAt`;
      other alarms and rows are untouched. */
  lemma ScheduleActive(alarms: Alarms, rows: seq<Task>, task: Task, now: int, k: int)
    requires task.status == ACTIVE && Schedulable(task)
    requires DistinctIds(rows, TaskId) && HasId(rows, TaskId, task.id)
    ensures var r := ScheduleEffect(alarms, rows, task, now, true);
            && r.0 == alarms[task.id := NextRun(task, now)]
            && FindId(r.1, TaskId, task.id) == Some(task.(nextRunAt := Some(NextRun(task, now))))
            && (k != task.id ==> FindId(r.1, TaskId, k) == FindId(rows, TaskId, k))
  {
    FindReplaced(rows, TaskId, task.(nextRunAt := Some(NextRun(task, now))), k);
  }

  /** Scheduling the same task twice at the same time leaves the same state
      as scheduling it once: the alarm is replaced, not added. */
  lemma ScheduleTwice(alarms: Alarms, rows: seq<Task>, task: Task, now: int, exact: bool)
    requires task.status == ACTIVE ==> Schedulable(task)
    ensures var once := ScheduleEffect(alarms, rows, task, now, exact);
            ScheduleEffect(once.0, once.1, task, now, exact) == once
  {
    var once := ScheduleEffect(alarms, rows, task, now, exact);
    if task.status != ACTIVE {
      assert once.0 - {task.id} == once.0;
    } else if exact {
      var next := NextRun(task, now);
      ReplaceIdTwice(rows, TaskId, task.(nextRunAt := Some(next)));
      assert once.0[task.id := next] == once.0;
    }
  }

  /** Every task of the list may be scheduled. */
  predicate AllSchedulable(tasks: seq<Task>) {
    forall i :: 0 <= i < |tasks| ==> (tasks[i].status == ACTIVE ==> Schedulable(tasks[i]))
  }

  /** `scheduleTask` applied to each task of the list in turn. */
  function ScheduleEach(alarms: Alarms, rows: seq<Task>, tasks: seq<Task>, now: int, exact: bool): (Alarms, seq<Task>)
    requires AllSchedulable(tasks)
  {
    if tasks == [] then (alarms, rows)
    else
      var before := ScheduleEach(alarms, rows, tasks[..|tasks| - 1], now, exact);
      ScheduleEffect(before.0, before.1, tasks[|tasks| - 1], now, exact)
  }

  /** With exact alarms, scheduling a list of ACTIVE tasks with distinct ids
      arms each of them at its own next run and keeps every other alarm. */
  lemma {:induction false} ScheduleEachArms(alarms: Alarms, rows: seq<Task>, tasks: seq<Task>, now: int)
    requires AllSchedulable(tasks) && DistinctIds(tasks, TaskId)
    requires forall i :: 0 <= i < |tasks| ==> tasks[i].status == ACTIVE
    ensures var a := ScheduleEach(alarms, rows, tasks, now, true).0;
            && (forall i :: 0 <= i < |tasks| ==> tasks[i].id in a && a[tasks[i].id] == NextRun(tasks[i], now))
            && (forall k :: k in a <==> k in alarms || HasId(tasks, TaskId, k))
            && (forall k :: k in alarms && !HasId(tasks, TaskId, k) ==> a[k] == alarms[k])
  {
    if tasks != [] {
      var init := tasks[..|tasks| - 1];
      var last := tasks[|tasks| - 1];
      assert AllSchedulable(init) && DistinctIds(init, TaskId);
      ScheduleEachArms(alarms, rows, init, now);
      var before := ScheduleEach(alarms, rows, init, now, true);
      ArmLast(before, last, now);
      forall k
        ensures HasId(tasks, TaskId, k) <==> HasId(init, TaskId, k) || k == last.id
      {
        HasIdSnoc(tasks, TaskId, k);
      }
      forall i | 0 <= i < |init|
        ensures tasks[i] == init[i] && tasks[i].id != last.id
      {
      }
    }
  }

  /** The alarms after scheduling one more ACTIVE task with exact alarms. */
  lemma ArmLast(before: (Alarms, seq<Task>), last: Task, now: int)
    requires last.status == ACTIVE && Schedulable(last)
    ensures ScheduleEffect(before.0, before.1, last, now, true).0 == before.0[last.id := NextRun(last, now)]
  {
  }

  /** The one message a run sends: the task's prompt, as the user. */
  function RunMessage(task: Task, now: int): Message {
    Message(conversationId := 0, role := USER, content := task.prompt, timestamp := now)
  }

  /** The request of a run holds exactly one user message, the prompt. */
  lemma RunRequest(task: Task, now: int, config: ModelConfig)
    ensures var request := BuildRequest([RunMessage(task, now)], config, false);
            request.messages == [ChatMessage("user", task.prompt)] && !request.stream
            && request.model == config.model
  {
  }

  /** The notification shown after a run: the first 100 characters of the
      reply followed by "...", or the failure's message. */
  function RunNotification(title: string, result: Result<string, ChatError>): (n: Notification)
    ensures n.title == title
    ensures result.Success? ==>
              && 3 <= |n.text| <= 103 && n.text[|n.text| - 3..] == "..."
              && n.text[..|n.text| - 3] == Take(result.value, 100)
    ensures result.Failure? ==> n.text == "执行失败: " + result.error.Message()
  {
    match result
    case Success(response) => Notification(title, Take(response, 100) + "...")
    case Failure(e) => Notification(title, "执行失败: " + e.Message())
  }

  /** What a run does to the alarms and the task table once the reply is in:
      a successful ONE_TIME run completes the task; a successful recurring
      run records `lastRunAt` and schedules the task again; a failure
      changes nothing. */
  function AfterRun(alarms: Alarms, rows: seq<Task>, task: Task, result: Result<string, ChatError>,
                    now: int, exact: bool): (r: (Alarms, seq<Task>))
    requires task.status == ACTIVE ==> Schedulable(task)
    ensures result.Failure? ==> r == (alarms, rows)
    ensures |r.1| == |rows|
    ensures forall k :: k != task.id ==> (k in r.0 <==> k in alarms)
    ensures forall k :: k != task.id && k in r.0 ==> r.0[k] == alarms[k]
  {
    if result.Failure? then (alarms, rows)
    else if task.taskType == ONE_TIME then (alarms, ReplaceId(rows, TaskId, task.(status := COMPLETED)))
    else
      var updated := task.(lastRunAt := Some(now));
      ScheduleEffect(alarms, ReplaceId(rows, TaskId, updated), updated, now, exact)
  }

  /** A successful ONE_TIME run, started by its alarm firing, marks the task
      COMPLETED and leaves it without an alarm; other alarms are kept. */
  lemma OneTimeRunCompletes(alarms: Alarms, rows: seq<Task>, task: Task, response: string, now: int, exact: bool)
    requires task.taskType == ONE_TIME && DistinctIds(rows, TaskId) && task in rows
    ensures var r := AfterRun(alarms - {task.id}, rows, task, Success(response), now, exact);
            && r.0 == alarms - {task.id}
            && FindId(r.1, TaskId, task.id) == Some(task.(status := COMPLETED))
  {
    FindIdUnique(rows, TaskId, task);
    FindReplaced(rows, TaskId, task.(status := COMPLETED), task.id);
  }

  /** A failed run, started by the task's alarm firing, sets no new alarm:
      the task is left without one while its row is unchanged, still ACTIVE
      for an ACTIVE task, so a recurring task does not run again until it is
      scheduled anew. */
  lemma FailedRunDisarms(alarms: Alarms, rows: seq<Task>, task: Task, error: ChatError, now: int, exact: bool)
    requires task.status == ACTIVE ==> Schedulable(task)
    requires DistinctIds(rows, TaskId) && task in rows
    ensures var r := AfterRun(alarms - {task.id}, rows, task, Failure(error), now, exact);
            && task.id !in r.0
            && r.0 == alarms - {task.id}
            && FindId(r.1, TaskId, task.id) == Some(task)
  {
    FindIdUnique(rows, TaskId, task);
  }

  /** A successful run of an ACTIVE recurring task, started by its alarm
      firing, re-arms it at a time after `now` and stores `lastRunAt = now`
      and the new `nextRunAt`. */
  lemma RecurringRunRearms(alarms: Alarms, rows: seq<Task>, task: Task, response: string, now: int)
    requires task.taskType == SCHEDULED && task.frequency.Some? && task.status == ACTIVE && Schedulable(task)
    requires DistinctIds(rows, TaskId) && task in rows
    ensures var next := NextRun(task, now);
            var r := AfterRun(alarms - {task.id}, rows, task, Success(response), now, true);
            && next > now
            && r.0 == alarms[task.id := next]
            && FindId(r.1, TaskId, task.id) == Some(task.(lastRunAt := Some(now), nextRunAt := Some(next)))
  {
    var updated := task.(lastRunAt := Some(now));
    var next := NextRun(task, now);
    NextRunIgnoresRunTimes(task, now, Some(now), task.nextRunAt);
    RecurringAfterNow(task, now);
    var row := updated.(nextRunAt := Some(next));
    var fired := alarms - {task.id};
    var replaced := ReplaceId(rows, TaskId, updated);
    assert AfterRun(fired, rows, task, Success(response), now, true)
        == ScheduleEffect(fired, replaced, updated, now, true);
    assert ScheduleEffect(fired, replaced, updated, now, true)
        == (fired[task.id := next], ReplaceId(replaced, TaskId, row));
    RearmFired(alarms, task.id, next);
    ReplaceIdOverride(rows, TaskId, updated, row);
    FindIdUnique(rows, TaskId, task);
    FindReplaced(rows, TaskId, row, task.id);
  }

  /** Arming an id whose alarm has fired gives the same table as re-arming
      it in place. */
  lemma RearmFired(alarms: Alarms, id: int, t: int)
    ensures (alarms - {id})[id := t] == alarms[id := t]
  {
  }

  /** The evident intent for a recurring task: whatever the run's outcome,
      it is scheduled again.  This differs from `AfterRun` only on a failed
      run of a SCHEDULED task, which is re-armed at its next run. */
  function AfterRunRearming(alarms: Alarms, rows: seq<Task>, task: Task, result: Result<string, ChatError>,
                            now: int, exact: bool): (r: (Alarms, seq<Task>))
    requires task.status == ACTIVE ==> Schedulable(task)
    ensures result.Success? || task.taskType == ONE_TIME ==> r == AfterRun(alarms, rows, task, result, now, exact)
  {
    if result.Failure? && task.taskType == SCHEDULED then ScheduleEffect(alarms, rows, task, now, exact)
    else AfterRun(alarms, rows, task, result, now, exact)
  }

  /** With the re-arming variant, an ACTIVE recurring task whose alarm fired
      has an alarm again after the run, at a time after `now`, whether the
      run succeeded or failed. */
  lemma RearmingKeepsSchedule(alarms: Alarms, rows: seq<Task>, task: Task, result: Result<string, ChatError>, now: int)
    requires task.taskType == SCHEDULED && task.frequency.Some? && task.status == ACTIVE && Schedulable(task)
    ensures var r := AfterRunRearming(alarms - {task.id}, rows, task, result, now, true);
            task.id in r.0 && r.0[task.id] == NextRun(task, now) > now
  {
    RecurringAfterNow(task, now);
    NextRunIgnoresRunTimes(task, now, Some(now), task.nextRunAt);
  }

  // ---- the scheduler ----

  class TaskScheduler {
    const taskDao: TaskDao
    const chat: ChatRepository
    const settings: SettingsRepository
    /** Whether exact alarms are permitted; without permission
        `setExactAndAllowWhileIdle` throws and the failure is only logged. */
    const exactAlarmsAllowed: bool
    var alarms: Alarms
    var notifications: seq<Notification>

    ghost predicate Valid()
      reads this, taskDao
    {
      taskDao.Valid()
    }

    constructor (taskDao: TaskDao, chat: ChatRepository, settings: SettingsRepository, exactAlarmsAllowed: bool)
      ensures this.taskDao == taskDao && this.chat == chat && this.settings == settings
      ensures this.exactAlarmsAllowed == exactAlarmsAllowed
      ensures alarms == map[] && notifications == []
    {
      this.taskDao := taskDao;
      this.chat := chat;
      this.settings := settings;
      this.exactAlarmsAllowed := exactAlarmsAllowed;
      alarms := map[];
      notifications := [];
    }

    /** `cancelTask`: the alarm under the task's id goes, if there is one. */
    method CancelTask(task: Task)
      modifies this
      ensures alarms == old(alarms) - {task.id}
      ensures notifications == old(notifications)
    {
      alarms := alarms - {task.id};
    }

    /** `scheduleTask`. */
    method ScheduleTask(task: Task, now: int)
      requires Valid() && (task.status == ACTIVE ==> Schedulable(task))
      modifies this, taskDao
      ensures Valid() && taskDao.lastId == old(taskDao.lastId)
      ensures (alarms, taskDao.rows) == ScheduleEffect(old(alarms), old(taskDao.rows), task, now, exactAlarmsAllowed)
      ensures notifications == old(notifications)
    {
      if task.status != ACTIVE {
        CancelTask(task);
        return;
      }
      var nextRun := CalculateNextRunTime(task, now);
      if exactAlarmsAllowed {
        alarms := alarms[task.id := nextRun];
        taskDao.UpdateTask(task.(nextRunAt := Some(nextRun)));
      }
    }

    /** `scheduleAllTasks`: every ACTIVE task, in the order of the query. */
    method ScheduleAllTasks(now: int)
      requires Valid() && forall t :: t in taskDao.rows && t.status == ACTIVE ==> Schedulable(t)
      modifies this, taskDao
      ensures Valid() && taskDao.lastId == old(taskDao.lastId)
      ensures AllSchedulable(old(taskDao.GetTasksByStatus(ACTIVE)))
      ensures (alarms, taskDao.rows)
           == ScheduleEach(old(alarms), old(taskDao.rows), old(taskDao.GetTasksByStatus(ACTIVE)), now, exactAlarmsAllowed)
      ensures notifications == old(notifications)
    {
      var active := taskDao.GetTasksByStatus(ACTIVE);
      assert AllSchedulable(active) by {
        forall i | 0 <= i < |active|
          ensures active[i].status == ACTIVE ==> Schedulable(active[i])
        {
          assert multiset(active)[active[i]] > 0;
        }
      }
      ScheduleTasks(active, now);
    }

    /** The `forEach` of `scheduleAllTasks`: `scheduleTask` on each task of
        the list in turn. */
    method ScheduleTasks(tasks: seq<Task>, now: int)
      requires Valid() && AllSchedulable(tasks)
      modifies this, taskDao
      ensures Valid() && taskDao.lastId == old(taskDao.lastId)
      ensures (alarms, taskDao.rows) == ScheduleEach(old(alarms), old(taskDao.rows), tasks, now, exactAlarmsAllowed)
      ensures notifications == old(notifications)
    {
      ghost var alarms0, rows0 := alarms, taskDao.rows;
      var i := 0;
      while i < |tasks|
        invariant 0 <= i <= |tasks| && Valid() && taskDao.lastId == old(taskDao.lastId)
        invariant (alarms, taskDao.rows) == ScheduleEach(alarms0, rows0, tasks[..i], now, exactAlarmsAllowed)
        invariant notifications == old(notifications)
      {
        assert tasks[..i + 1][..i] == tasks[..i];
        ScheduleTask(tasks[i], now);
        i := i + 1;
      }
      assert tasks[..i] == tasks;
    }

    /** `executeTask`, for the id an alarm delivered (the receiver passes only
        positive ids).  That alarm has fired, so it is no longer pending;
        only a successful recurring run sets a new one.  `storeFault` is the
        exception reading the settings throws, if any; `server` answers the
        chat call. */
    method ExecuteTask(taskId: int, now: int, storeFault: Option<string>,
                       server: (Service, ChatRequest) -> Call<ChatResponse>)
      requires taskId > 0 && Valid()
      requires var found := taskDao.GetTaskById(taskId);
               found.Some? && found.value.status == ACTIVE ==> Schedulable(found.value)
      modifies this, taskDao, chat
      ensures Valid() && taskDao.lastId == old(taskDao.lastId)
      ensures var found := old(taskDao.GetTaskById(taskId));
              found.None? ==>
                && alarms == old(alarms) - {taskId} && notifications == old(notifications)
                && taskDao.rows == old(taskDao.rows)
                && chat.currentConfig == old(chat.currentConfig) && chat.apiService == old(chat.apiService)
      ensures var found := old(taskDao.GetTaskById(taskId));
              found.Some? && storeFault.Some? ==>
                && alarms == old(alarms) - {taskId} && taskDao.rows == old(taskDao.rows)
                && notifications == old(notifications) + [Notification(found.value.title, "执行出错: " + storeFault.value)]
                && chat.currentConfig == old(chat.currentConfig) && chat.apiService == old(chat.apiService)
      ensures var found := old(taskDao.GetTaskById(taskId));
              found.Some? && storeFault.None? ==>
                var config := settings.Config();
                var u := UpdateClient(Client(old(chat.currentConfig), old(chat.apiService)), config, chat.buildService);
                var result := SimpleOutcome(u, [RunMessage(found.value, now)], config, server);
                && Client(chat.currentConfig, chat.apiService) == u.0
                && notifications == old(notifications) + [RunNotification(found.value.title, result)]
                && (alarms, taskDao.rows)
                   == AfterRun(old(alarms) - {taskId}, old(taskDao.rows), found.value, result, now, exactAlarmsAllowed)
                && (result.Failure? ==> taskId !in alarms && taskDao.rows == old(taskDao.rows))
    {
      alarms := alarms - {taskId};
      var found := taskDao.GetTaskById(taskId);
      if found.None? {
        return;
      }
      var task := found.value;
      if storeFault.Some? {
        notifications := notifications + [Notification(task.title, "执行出错: " + storeFault.value)];
        return;
      }
      var config := settings.Config();
      var messages := [RunMessage(task, now)];
      var result := chat.SendMessageSimple(messages, config, server);
      FinishRun(task, result, now);
    }

    /** The part of `executeTask` after the reply: notify, then complete a
        ONE_TIME task or record the run of a recurring one and schedule it
        again.  The execution record is built but never stored. */
    method FinishRun(task: Task, result: Result<string, ChatError>, now: int)
      requires Valid() && (task.status == ACTIVE ==> Schedulable(task))
      modifies this, taskDao
      ensures Valid() && taskDao.lastId == old(taskDao.lastId)
      ensures notifications == old(notifications) + [RunNotification(task.title, result)]
      ensures (alarms, taskDao.rows) == AfterRun(old(alarms), old(taskDao.rows), task, result, now, exactAlarmsAllowed)
    {
      notifications := notifications + [RunNotification(task.title, result)];
      if result.Success? {
        var execution := TaskExecution(taskId := task.id, taskTitle := task.title, executedAt := now,
                                       prompt := task.prompt, response := result.value, success := true);
        if task.taskType == ONE_TIME {
          taskDao.UpdateTask(task.(status := COMPLETED));
        } else {
          var updated := task.(lastRunAt := Some(now));
          if task.status == ACTIVE {
            NextRunIgnoresRunTimes(task, now, Some(now), task.nextRunAt);
          }
          taskDao.UpdateTask(updated);
          ScheduleTask(updated, now);
        }
      }
    }
  }
}

/** `data/database/TaskDao.kt`: the `tasks` and `task_executions` tables as
    in-memory tables.  Each `@Query` is a function of the table, each
    `@Insert`/`@Update`/`@Delete` a method that changes it. */
module TaskDatabase {
  import opened Wrappers
  import opened Tables
  import opened TaskModel

  function TaskId(t: Task): int { t.id }

  /** The `nextRunAt` column; null when the task has no next run. */
  function NextRunKey(t: Task): Key {
    match t.nextRunAt
    case None => Null
    case Some(v) => Val(v)
  }

  function ExecutionId(e: TaskExecution): int { e.id }

  function ExecutedAtKey(e: TaskExecution): Key { Val(e.executedAt) }

  class TaskDao {
    /** The rows of `tasks`, in insertion order. */
    var rows: seq<Task>
    /** The AUTOINCREMENT counter: the largest id ever used. */
    var lastId: int

    ghost predicate Valid()
      reads this
    {
      WellKeyed(rows, TaskId, lastId)
    }

    constructor ()
      ensures rows == [] && lastId == 0 && Valid()
    {
      rows := [];
      lastId := 0;
    }

    /** `SELECT * FROM tasks ORDER BY nextRunAt ASC`. */
    function GetAllTasks(): (r: seq<Task>)
      reads this
      ensures SortedBy(r, NextRunKey, false)
      ensures multiset(r) == multiset(rows)
    {
      OrderBy(rows, NextRunKey, false)
    }

    /** `SELECT * FROM tasks WHERE type = :type ORDER BY nextRunAt ASC`. */
    function GetTasksByType(ty: TaskType): (r: seq<Task>)
      reads this
      ensures SortedBy(r, NextRunKey, false)
      ensures forall t :: multiset(r)[t] == if t.taskType == ty then multiset(rows)[t] else 0
    {
      var p := (t: Task) => t.taskType == ty;
      WhereSorted(GetAllTasks(), p, NextRunKey, false);
      Where(GetAllTasks(), p)
    }

    /** `SELECT * FROM tasks WHERE status = :status ORDER BY nextRunAt ASC`. */
    function GetTasksByStatus(status: TaskStatus): (r: seq<Task>)
      reads this
      ensures SortedBy(r, NextRunKey, false)
      ensures forall t :: multiset(r)[t] == if t.status == status then multiset(rows)[t] else 0
    {
      var p := (t: Task) => t.status == status;
      WhereSorted(GetAllTasks(), p, NextRunKey, false);
      Where(GetAllTasks(), p)
    }

    /** `SELECT * FROM tasks WHERE id = :id`: the row, or null. */
    function GetTaskById(id: int): (r: Option<Task>)
      reads this
      ensures r.Some? ==> r.value in rows && r.value.id == id
      ensures r.None? <==> forall i :: 0 <= i < |rows| ==> rows[i].id != id
    {
      FindId(rows, TaskId, id)
    }

    /** `@Insert(onConflict = REPLACE)`: stores the task under its id, or
        under a fresh id when it has id 0, and returns that id. */
    method InsertTask(task: Task) returns (id: int)
      requires Valid()
      modifies this
      ensures Valid()
      ensures id == AssignedId(task.id, old(lastId))
      ensures rows == Upsert(old(rows), TaskId, task.(id := id))
      ensures lastId == if id > old(lastId) then id else old(lastId)
      ensures GetTaskById(id) == Some(task.(id := id))
    {
      id := AssignedId(task.id, lastId);
      var row := task.(id := id);
      UpsertKeeps(rows, TaskId, lastId, row);
      UpsertSpec(rows, TaskId, row);
      rows := Upsert(rows, TaskId, row);
      if id > lastId {
        lastId := id;
      }
      FindIdUnique(rows, TaskId, row);
    }

    /** `@Update`: replaces the row with the task's id; nothing if absent. */
    method UpdateTask(task: Task)
      requires Valid()
      modifies this
      ensures Valid() && lastId == old(lastId)
      ensures rows == ReplaceId(old(rows), TaskId, task)
    {
      ReplaceKeeps(rows, TaskId, lastId, task);
      rows := ReplaceId(rows, TaskId, task);
    }

    /** `@Delete`: removes the row with the task's id; nothing if absent. */
    method DeleteTask(task: Task)
      requires Valid()
      modifies this
      ensures Valid() && lastId == old(lastId)
      ensures rows == RemoveId(old(rows), TaskId, task.id)
    {
      RemoveKeeps(rows, TaskId, lastId, task.id);
      rows := RemoveId(rows, TaskId, task.id);
    }

    /** `UPDATE tasks SET status = :status WHERE id = :id`: only the status
        of that one row changes. */
    method UpdateTaskStatus(id: int, status: TaskStatus)
      requires Valid()
      modifies this
      ensures Valid() && lastId == old(lastId)
      ensures |rows| == |old(rows)|
      ensures forall i :: 0 <= i < |rows| ==>
                rows[i] == if old(rows)[i].id == id then old(rows)[i].(status := status) else old(rows)[i]
    {
      match FindId(rows, TaskId, id)
      case None =>
      case Some(t) =>
        ReplaceKeeps(rows, TaskId, lastId, t.(status := status));
        ghost var before := rows;
        rows := ReplaceId(rows, TaskId, t.(status := status));
        forall i | 0 <= i < |rows| && before[i].id == id
          ensures before[i] == t
        {
          var j :| 0 <= j < |before| && before[j] == t;
        }
    }
  }

  class TaskExecutionDao {
    /** The rows of `task_executions`, in insertion order. */
    var rows: seq<TaskExecution>
    var lastId: int

    ghost predicate Valid()
      reads this
    {
      WellKeyed(rows, ExecutionId, lastId)
    }

    constructor ()
      ensures rows == [] && lastId == 0 && Valid()
    {
      rows := [];
      lastId := 0;
    }

    /** `SELECT * FROM task_executions ORDER BY executedAt DESC`. */
    function GetAllExecutions(): (r: seq<TaskExecution>)
      reads this
      ensures SortedBy(r, ExecutedAtKey, true)
      ensures multiset(r) == multiset(rows)
    {
      OrderBy(rows, ExecutedAtKey, true)
    }

    /** `... WHERE taskId = :taskId ORDER BY executedAt DESC`. */
    function GetExecutionsByTask(taskId: int): (r: seq<TaskExecution>)
      reads this
      ensures SortedBy(r, ExecutedAtKey, true)
      ensures forall e :: multiset(r)[e] == if e.taskId == taskId then multiset(rows)[e] else 0
    {
      var p := (e: TaskExecution) => e.taskId == taskId;
      WhereSorted(GetAllExecutions(), p, ExecutedAtKey, true);
      Where(GetAllExecutions(), p)
    }

    /** `... ORDER BY executedAt DESC LIMIT :limit`, 50 by default: the
        latest `limit` executions. */
    function GetRecentExecutions(limit: int := 50): (r: seq<TaskExecution>)
      reads this
      ensures SortedBy(r, ExecutedAtKey, true)
      ensures limit >= 0 ==> |r| == if limit < |rows| then limit else |rows|
      ensures |r| <= |rows| && r == GetAllExecutions()[..|r|]
    {
      var all := GetAllExecutions();
      assert |all| == |multiset(all)| == |multiset(rows)| == |rows|;
      Limit(all, limit)
    }

    /** `@Insert(onConflict = REPLACE)`. */
    method InsertExecution(execution: TaskExecution) returns (id: int)
      requires Valid()
      modifies this
      ensures Valid()
      ensures id == AssignedId(execution.id, old(lastId))
      ensures rows == Upsert(old(rows), ExecutionId, execution.(id := id))
      ensures lastId == if id > old(lastId) then id else old(lastId)
    {
      id := AssignedId(execution.id, lastId);
      var row := execution.(id := id);
      UpsertKeeps(rows, ExecutionId, lastId, row);
      rows := Upsert(rows, ExecutionId, row);
      if id > lastId {
        lastId := id;
      }
    }

    /** `DELETE FROM task_executions WHERE taskId = :taskId`: exactly that
        task's rows go, every other row stays. */
    method DeleteExecutionsByTask(taskId: int)
      requires Valid()
      modifies this
      ensures Valid() && lastId == old(lastId)
      ensures rows == Where(old(rows), (e: TaskExecution) => e.taskId != taskId)
      ensures forall e :: e in rows <==> e in old(rows) && e.taskId != taskId
    {
      var p := (e: TaskExecution) => e.taskId != taskId;
      WhereKeeps(rows, p, ExecutionId, lastId);
      ghost var before := rows;
      rows := Where(rows, p);
      forall e
        ensures e in rows <==> e in before && e.taskId != taskId
      {
        assert e in rows <==> e in multiset(rows);
      }
    }
  }
}

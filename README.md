# Code Assistant core in Dafny

A model of the core of the Android "Code Assistant" app, with proofs about it. The app is a chat client for OpenAI-compatible servers, and it can also run scheduled prompts.

The model covers:

- **The task scheduler** (`Scheduling`, `Recurrence`). It computes the next run of a one-time, daily, weekly or hourly task. It arms or cancels the alarm kept under the task's id and stores the next run on the task row. A fired task is executed: its prompt is sent once to the chat service, a notification is posted, and the row is updated. A one-time task is marked COMPLETED. A recurring task gets `lastRunAt` and is re-armed.
- **The chat repository** (`Chat`, `EventStream`, `ChatApi`):
  - the client rebuilt when the configuration changes;
  - the role mapping and the request built from the stored messages;
  - the streamed `data:` lines read up to `[DONE]`;
  - the mapping of a plain call to success, API error, empty response or exception.
- **The entities** (`Models`, `TaskModel`): messages, conversations, model configurations and presets, tasks and task executions. This includes the `"HH:mm"` and `"MM/dd"` renderings and the comma-separated weekday list.
- **The Room tables** (`Tables`, `TaskDatabase`, `ChatDatabase`). Each table is modelled in memory:
  - rows in insertion order;
  - an AUTOINCREMENT counter;
  - `REPLACE` inserts, updates and deletes by primary key;
  - `WHERE` filters, a stable `ORDER BY` (NULL first) and `LIMIT`.
- **The settings store** (`Settings`): the six preference keys, decoding with defaults, and encoding.
- **The two view models** (`AppViewModel`, `ChatScreen`). These are:
  - the send flow: guard, conversation creation, user message, context, reply and retitling;
  - conversation and task management.
- **The task editor's rules** (`TaskEditor`):
  - the initial form state and the weekday chip table;
  - day toggling and clamped hour and minute input;
  - the save guard and the record the editor hands over.

Time is epoch milliseconds in one fixed zone (`Clock.ZoneOffset`); Sunday is weekday 1, as in `java.util.Calendar`. Some things outside the model are passed in as parameters: the chat server, the stream body, `now`, the Retrofit builder, and the float parser and formatter. The alarm service is a map from task id to trigger time, and posted notifications are a list.

## Model

| member | source | states |
|---|---|---|
| Recurrence.CalculateNextRunTime | app/src/main/java/com/codeassistant/service/TaskScheduler.kt:84-121 | the stepping loops return exactly `NextRun(task, now)`, the first candidate time that the loop's exit test accepts |
| Recurrence.StepPast | app/src/main/java/com/codeassistant/service/TaskScheduler.kt:98-102 | the day/hour loop stops at `scheduledTime + k·step` for the least k that passes `now` |
| Recurrence.StepToWeekday | app/src/main/java/com/codeassistant/service/TaskScheduler.kt:103-109 | the weekly loop stops at the least day step that is after `now` and on a listed weekday |
| Recurrence.StepsPast | app/src/main/java/com/codeassistant/service/TaskScheduler.kt:99-101 | the step count lands after `now`, and every smaller count is still at or before `now` |
| Recurrence.WeeklySteps | app/src/main/java/com/codeassistant/service/TaskScheduler.kt:105-107 | the first day step that is after `now` on a listed weekday; every earlier step fails one of the two tests |
| Recurrence.DaysToMatch | app/src/main/java/com/codeassistant/service/TaskScheduler.kt:105-107 | within a week, the first day offset whose weekday is listed |
| Recurrence.WeekHasEvery | app/src/main/java/com/codeassistant/service/TaskScheduler.kt:103-109 | every weekday occurs within seven consecutive days, so the weekly loop ends when some listed day is in 1..7 |
| Recurrence.RecurringNextRun | app/src/main/java/com/codeassistant/service/TaskScheduler.kt:98-102 | DAILY/HOURLY: the next run is the least `scheduledTime + k·step` after `now`, and `scheduledTime` itself when that is ahead |
| Recurrence.WeeklyNextRun | app/src/main/java/com/codeassistant/service/TaskScheduler.kt:103-109 | WEEKLY: the next run is a whole number of days from `scheduledTime`, after `now`, on a listed weekday, and no earlier day qualifies |
| Recurrence.RecurringAfterNow | app/src/main/java/com/codeassistant/service/TaskScheduler.kt:96-117 | every SCHEDULED task with a frequency runs next strictly after `now` |
| Recurrence.NextRunIgnoresRunTimes | app/src/main/java/com/codeassistant/service/TaskScheduler.kt:84-121 | the next run depends neither on `lastRunAt` nor on the stored `nextRunAt` |
| Recurrence.WeeklyNeverMatches | app/src/main/java/com/codeassistant/service/TaskScheduler.kt:104-108 | with no weekday 1..7 in the list, no day ever matches, so the weekly loop cannot stop |
| Recurrence.OneTimeMayStayPast | app/src/main/java/com/codeassistant/service/TaskScheduler.kt:91-95 | a ONE_TIME task more than an hour overdue moves on one hour only, which is still not after `now` |
| Clock.WeekdayAfterDays | app/src/main/java/com/codeassistant/service/TaskScheduler.kt:106-107 | adding n days moves `DAY_OF_WEEK` on by n modulo 7 |
| Clock.EpochDayAfterDays | app/src/main/java/com/codeassistant/service/TaskScheduler.kt:100 | adding n days adds n to the local day number and keeps the time of day |
| Clock.Weekday | app/src/main/java/com/codeassistant/service/TaskScheduler.kt:106 | `DAY_OF_WEEK` lies in 1..7, with Sunday = 1 |
| Clock.CivilFromDays | app/src/main/java/com/codeassistant/data/model/Task.kt:53-59 | a day number becomes a valid Gregorian date: month in 1..12 and day within the month's length |
| Clock.DaysFromCivilFromDays | app/src/main/java/com/codeassistant/data/model/Task.kt:53-59 | the date a day number is rendered as converts back to the same day number |
| Scheduling.ScheduleInactive | app/src/main/java/com/codeassistant/service/TaskScheduler.kt:57-61 | a task that is not ACTIVE has its alarm removed; rows and all other alarms are untouched |
| Scheduling.ScheduleActive | app/src/main/java/com/codeassistant/service/TaskScheduler.kt:62-78 | an ACTIVE task gets exactly one alarm, at `NextRun`; its row stores that time as `nextRunAt`; other rows are unchanged |
| Scheduling.ScheduleTwice | app/src/main/java/com/codeassistant/service/TaskScheduler.kt:57-82 | scheduling the same task twice at the same instant leaves the same alarms and rows as once |
| Scheduling.ScheduleEachArms | app/src/main/java/com/codeassistant/service/TaskScheduler.kt:51-55 | after scheduling all ACTIVE tasks, each one's alarm is at its `NextRun`; alarms of other ids stay as they were, and no other alarm appears |
| Scheduling.ArmLast | app/src/main/java/com/codeassistant/service/TaskScheduler.kt:73-77 | arming with exact alarms allowed sets the task's map entry to its next run |
| Scheduling.ScheduleEffect | app/src/main/java/com/codeassistant/service/TaskScheduler.kt:57-82 | the table keeps its length; a task that is not ACTIVE has no alarm afterwards, an ACTIVE one has one when arming is allowed; alarms of other ids are untouched |
| Scheduling.RunRequest | app/src/main/java/com/codeassistant/service/TaskScheduler.kt:137-139 | an executed task sends exactly one message, a user message holding the prompt, with `stream = false` and the configured model |
| Scheduling.RunNotification | app/src/main/java/com/codeassistant/service/TaskScheduler.kt:152-163 | success: the notification text is the first 100 characters of the response followed by "..."; failure: "执行失败: " and the error message |
| Scheduling.OneTimeRunCompletes | app/src/main/java/com/codeassistant/service/TaskScheduler.kt:155-156 | a successful ONE_TIME run marks the row COMPLETED and leaves the task without an alarm once its own has fired |
| Scheduling.RecurringRunRearms | app/src/main/java/com/codeassistant/service/TaskScheduler.kt:157-160 | a successful recurring run stores `lastRunAt = now` and re-arms the task, after its alarm fired, at its next run, which lies after `now` |
| Scheduling.FailedRunDisarms | app/src/main/java/com/codeassistant/service/TaskScheduler.kt:141-164 | after its alarm fired, a failed run sets no new alarm: the task has none, other alarms are kept, and its row (still ACTIVE) is unchanged |
| Scheduling.AfterRunRearming | app/src/main/java/com/codeassistant/service/TaskScheduler.kt:141-164 | the re-arming variant agrees with the source on every successful run and on every ONE_TIME task |
| Scheduling.RearmingKeepsSchedule | app/src/main/java/com/codeassistant/service/TaskScheduler.kt:155-163 | with the re-arming variant, an ACTIVE recurring task has an alarm after `now` again after every run, failed or not |
| Scheduling.AfterRun | app/src/main/java/com/codeassistant/service/TaskScheduler.kt:141-165 | a failed run changes neither alarms nor rows; the table keeps its length and alarms of other ids are untouched |
| Scheduling.TaskScheduler.CancelTask | app/src/main/java/com/codeassistant/service/TaskScheduler.kt:123-130 | only the task's alarm is removed |
| Scheduling.TaskScheduler.ScheduleTask | app/src/main/java/com/codeassistant/service/TaskScheduler.kt:57-82 | the alarms and task rows become `ScheduleEffect`; without exact-alarm permission the arm is caught and nothing is armed or stored |
| Scheduling.TaskScheduler.ScheduleAllTasks | app/src/main/java/com/codeassistant/service/TaskScheduler.kt:51-55 | every task read as ACTIVE is scheduled, in `nextRunAt` order |
| Scheduling.TaskScheduler.ScheduleTasks | app/src/main/java/com/codeassistant/service/TaskScheduler.kt:52-54 | the loop over the list yields `ScheduleEach` of it |
| Scheduling.TaskScheduler.ExecuteTask | app/src/main/java/com/codeassistant/service/TaskScheduler.kt:132-173 | the alarm that delivered the id has fired and is no longer pending. A missing id changes nothing else. A failed configuration read posts "执行出错: …". Otherwise the prompt is sent, its notification is posted, and rows and alarms become `AfterRun` of the alarms without the fired one; a failed run leaves the task with no alarm and its row unchanged |
| Scheduling.TaskScheduler.FinishRun | app/src/main/java/com/codeassistant/service/TaskScheduler.kt:141-165 | the result's notification is appended, and the row and alarm update of `AfterRun` is applied |
| Chat.ErrorMessages | app/src/main/java/com/codeassistant/data/repository/ChatRepository.kt:72-79 | the built-in error messages are non-empty, and "API error: " carries the status code, which reads back |
| Chat.RoleWireRoundTrip | app/src/main/java/com/codeassistant/data/repository/ChatRepository.kt:53-62 | USER/ASSISTANT/SYSTEM map one-to-one onto "user"/"assistant"/"system" |
| Chat.ToWire | app/src/main/java/com/codeassistant/data/repository/ChatRepository.kt:53-62 | one wire message per stored message, in order, with the same content and the role that reads back |
| Chat.BuildRequest | app/src/main/java/com/codeassistant/data/repository/ChatRepository.kt:64-70 | the request carries the configuration's model, temperature and max tokens, the given stream flag, and every message, in order, with its role and content |
| Chat.UpdateClient | app/src/main/java/com/codeassistant/data/repository/ChatRepository.kt:33-43 | the configuration is always recorded. An unchanged configuration changes nothing. A builder failure keeps the old service and reports the exception |
| Chat.UpdateClientIdempotent | app/src/main/java/com/codeassistant/data/repository/ChatRepository.kt:33-43 | applying the same configuration a second time changes nothing |
| Chat.UpdateClientRebuilds | app/src/main/java/com/codeassistant/data/repository/ChatRepository.kt:35-41 | a new configuration whose base URL builds installs that service |
| Chat.SimpleResult | app/src/main/java/com/codeassistant/data/repository/ChatRepository.kt:140-151 | no service: "API not configured". Otherwise success exactly on a 2xx status, "API error: code" on any other status, and a thrown call is a failure carrying its exception |
| Chat.SimpleResultContent | app/src/main/java/com/codeassistant/data/repository/ChatRepository.kt:143-145 | on 2xx the result is the first choice's content, or "" when there is no body or no choice |
| Chat.StreamingResult | app/src/main/java/com/codeassistant/data/repository/ChatRepository.kt:72-111 | no service: "API not configured"; a non-2xx status: "API error: code"; no body: "Empty response"; a thrown call: that exception; otherwise what reading the stream yields |
| Chat.StreamingTextIsChunks | app/src/main/java/com/codeassistant/data/repository/ChatRepository.kt:82-108 | a successful stream's text is the concatenation of the chunks handed to `onChunk`, in order |
| Chat.ReadLine | app/src/main/java/com/codeassistant/data/repository/ChatRepository.kt:85-104 | reading stops exactly at a `[DONE]` payload; any other line yields the chunk `LineChunks` gives it |
| Chat.ReadStream | app/src/main/java/com/codeassistant/data/repository/ChatRepository.kt:80-108 | the read loop emits `StreamChunks` of the body, and its text is their concatenation; an I/O failure before `[DONE]` is an exception |
| Chat.ChatRepository.UpdateConfig | app/src/main/java/com/codeassistant/data/repository/ChatRepository.kt:33-43 | the repository's configuration and service become `UpdateClient` of the old ones |
| Chat.ChatRepository.SendMessage | app/src/main/java/com/codeassistant/data/repository/ChatRepository.kt:45-112 | updates the client, sends the streaming request, and returns the stream's result and chunks (a builder exception is a failure) |
| Chat.ChatRepository.SendMessageSimple | app/src/main/java/com/codeassistant/data/repository/ChatRepository.kt:114-152 | updates the client and returns `SimpleResult` of the non-streaming request |
| Chat.SimpleOutcome | app/src/main/java/com/codeassistant/data/repository/ChatRepository.kt:114-152 | an exception from rebuilding the client is the failure; without a client the call fails with "API not configured"; success needs a client and no rebuild failure |
| EventStream.Payload | app/src/main/java/com/codeassistant/data/repository/ChatRepository.kt:86-87 | a line has a payload exactly when it starts with "data: " |
| EventStream.ChunkOf | app/src/main/java/com/codeassistant/data/repository/ChatRepository.kt:92-101 | a chunk is non-empty, holds no quote, and stands between `"content":"` and the next quote; without the key there is none |
| EventStream.StreamChunksSplit | app/src/main/java/com/codeassistant/data/repository/ChatRepository.kt:82-106 | before any `[DONE]`, the chunks of two stretches of lines are the chunks of each, concatenated |
| EventStream.StreamStopsAtDone | app/src/main/java/com/codeassistant/data/repository/ChatRepository.kt:88 | nothing after the first `[DONE]` line contributes a chunk |
| EventStream.OtherLinesIgnored | app/src/main/java/com/codeassistant/data/repository/ChatRepository.kt:86 | a line not starting with "data: " contributes nothing |
| EventStream.EventChunk | app/src/main/java/com/codeassistant/data/repository/ChatRepository.kt:92-101 | an event line carrying `"content":"text"` yields exactly `text` |
| EventStream.TwoEvents | app/src/main/java/com/codeassistant/data/repository/ChatRepository.kt:82-108 | two content events followed by `[DONE]` yield the two chunks, and the text is their concatenation |
| EventStream.AppendChunk | app/src/main/java/com/codeassistant/data/repository/ChatRepository.kt:98-99 | appending a chunk to the builder appends it to the final text |
| Settings.Lookup | app/src/main/java/com/codeassistant/data/repository/SettingsRepository.kt:27-37 | a stored key is found with its value; a missing key is null |
| Settings.DecodeConfig | app/src/main/java/com/codeassistant/data/repository/SettingsRepository.kt:27-37 | the display name is the stored provider, or "OpenAI"/"openai" when none is stored |
| Settings.DecodeEmpty | app/src/main/java/com/codeassistant/data/repository/SettingsRepository.kt:27-37 | an empty store decodes to OpenAI, `https://api.openai.com/v1`, gpt-4, 0.7 and 4096 |
| Settings.DecodeBadMaxTokens | app/src/main/java/com/codeassistant/data/repository/SettingsRepository.kt:35 | an unparsable max-tokens entry falls back to 4096 |
| Settings.EncodeKeys | app/src/main/java/com/codeassistant/data/repository/SettingsRepository.kt:39-48 | saving writes exactly the six keys with the configuration's values (the temperature through `Float.toString`, max tokens through `Int.toString`) and keeps every other entry |
| Settings.EncodeConfig | app/src/main/java/com/codeassistant/data/repository/SettingsRepository.kt:39-47 | the saved store holds the old keys and the six keys, and every other entry keeps its value |
| Settings.DecodeEncode | app/src/main/java/com/codeassistant/data/repository/SettingsRepository.kt:27-48 | reading back a saved configuration gives it again, except that the name becomes the provider and the temperature goes through the float round trip |
| Settings.SettingsRepository.SaveModelConfig | app/src/main/java/com/codeassistant/data/repository/SettingsRepository.kt:39-48 | the store becomes the encoding, and the flow then yields the decoded configuration |
| Models.Presets | app/src/main/java/com/codeassistant/data/model/Models.kt:46-69 | three presets (openai, anthropic, custom) with empty key, temperature 0.7 and 4096 tokens |
| Models.ModelConfigDefaults | app/src/main/java/com/codeassistant/data/model/Models.kt:35-43 | the defaults are apiKey "", model "", temperature 0.7f, maxTokens 4096; the OpenAI and custom presets' URLs and models |
| Models.NewRowsAreUnassigned | app/src/main/java/com/codeassistant/data/model/Models.kt:15-32 | new messages and conversations carry id 0, which the table replaces |
| TaskModel.RecordDefaults | app/src/main/java/com/codeassistant/data/model/Task.kt:30-74 | a new task is ACTIVE with id 0, no frequency, empty days, no run times and source "manual"; an execution has id 0 and no error |
| TaskModel.DisplayTime | app/src/main/java/com/codeassistant/data/model/Task.kt:45-51 | "HH:mm" is five characters whose two fields read back as the local hour (<24) and minute (<60) |
| TaskModel.DisplayDate | app/src/main/java/com/codeassistant/data/model/Task.kt:53-59 | "MM/dd" is five characters whose fields read back as the local month and day, both valid |
| TaskModel.ParseJoinDays | app/src/main/java/com/codeassistant/data/model/Task.kt:38 | the comma-separated weekday list parses back to the list that was joined |
| TaskModel.ParseDays | app/src/main/java/com/codeassistant/service/TaskScheduler.kt:104 | a list without commas reads as its one integer, or as no day when it is not an integer |
| TaskModel.JoinDays | app/src/main/java/com/codeassistant/ui/tasks/TaskEditScreen.kt:56 | the joined text is empty exactly for no days, a single day is its `toString()`, and two or more days are comma-separated |
| Tables.OrderBy | app/src/main/java/com/codeassistant/data/database/TaskDao.kt:9-10 | `ORDER BY` returns a permutation of the rows, sorted by the key (NULL first) |
| Tables.Where | app/src/main/java/com/codeassistant/data/database/TaskDao.kt:12-16 | `WHERE` keeps every matching row with its multiplicity and drops the rest |
| Tables.WhereSorted | app/src/main/java/com/codeassistant/data/database/TaskDao.kt:12-16 | filtering a sorted result keeps it sorted |
| Tables.Limit | app/src/main/java/com/codeassistant/data/database/TaskDao.kt:39-40 | `LIMIT n` is the first n rows (all of them when fewer, or when n is negative) |
| Tables.FindId | app/src/main/java/com/codeassistant/data/database/TaskDao.kt:18-19 | a lookup finds a row with that id exactly when one exists |
| Tables.ReplaceIdSpec | app/src/main/java/com/codeassistant/data/database/TaskDao.kt:24-25 | `@Update` replaces the row with the same key and leaves every other row; keys stay distinct |
| Tables.UpsertSpec | app/src/main/java/com/codeassistant/data/database/TaskDao.kt:21-22 | a REPLACE insert leaves exactly one row with the key, the new one, and keeps the other rows |
| Tables.RemoveId | app/src/main/java/com/codeassistant/data/database/TaskDao.kt:27-28 | `@Delete` removes exactly the rows with the key |
| Tables.AssignedId | app/src/main/java/com/codeassistant/data/database/TaskDao.kt:21-22 | id 0 gets a fresh key above every key used so far; any other id is kept |
| Tables.UpsertKeeps | app/src/main/java/com/codeassistant/data/database/TaskDao.kt:21-22 | inserting keeps the keys distinct, non-zero and no larger than the counter |
| Tables.ReplaceIdTwice | app/src/main/java/com/codeassistant/data/database/TaskDao.kt:24-25 | updating twice with the same row is updating once |
| Tables.FindReplaced | app/src/main/java/com/codeassistant/data/database/TaskDao.kt:18-25 | after an update, lookup by its key yields the new row, and other keys are unaffected |
| TaskDatabase.TaskDao.GetAllTasks | app/src/main/java/com/codeassistant/data/database/TaskDao.kt:9-10 | all tasks, by `nextRunAt` ascending |
| TaskDatabase.TaskDao.GetTasksByType | app/src/main/java/com/codeassistant/data/database/TaskDao.kt:12-13 | exactly the tasks of the type, by `nextRunAt` |
| TaskDatabase.TaskDao.GetTasksByStatus | app/src/main/java/com/codeassistant/data/database/TaskDao.kt:15-16 | exactly the tasks with the status, by `nextRunAt` |
| TaskDatabase.TaskDao.GetTaskById | app/src/main/java/com/codeassistant/data/database/TaskDao.kt:18-19 | the task with the id, or null exactly when there is none |
| TaskDatabase.TaskDao.InsertTask | app/src/main/java/com/codeassistant/data/database/TaskDao.kt:21-22 | returns the assigned id; the task is then found under it |
| TaskDatabase.TaskDao.UpdateTask | app/src/main/java/com/codeassistant/data/database/TaskDao.kt:24-25 | the row with the task's id is replaced |
| TaskDatabase.TaskDao.DeleteTask | app/src/main/java/com/codeassistant/data/database/TaskDao.kt:27-28 | the row with the task's id is removed |
| TaskDatabase.TaskDao.UpdateTaskStatus | app/src/main/java/com/codeassistant/data/database/TaskDao.kt:30-31 | only the status of the row with the id changes |
| TaskDatabase.TaskExecutionDao.GetExecutionsByTask | app/src/main/java/com/codeassistant/data/database/TaskDao.kt:36-37 | exactly the task's executions, newest first |
| TaskDatabase.TaskExecutionDao.GetRecentExecutions | app/src/main/java/com/codeassistant/data/database/TaskDao.kt:39-40 | the newest `limit` executions (50 by default), newest first |
| TaskDatabase.TaskExecutionDao.GetAllExecutions | app/src/main/java/com/codeassistant/data/database/TaskDao.kt:42-43 | all executions, newest first |
| TaskDatabase.TaskExecutionDao.InsertExecution | app/src/main/java/com/codeassistant/data/database/TaskDao.kt:45-46 | returns the assigned id and upserts the row under it |
| TaskDatabase.TaskExecutionDao.DeleteExecutionsByTask | app/src/main/java/com/codeassistant/data/database/TaskDao.kt:48-49 | exactly the task's executions are removed |
| ChatDatabase.ConversationMessagesSpec | app/src/main/java/com/codeassistant/data/database/Dao.kt:10-11 | the conversation's messages, each with its multiplicity, oldest first |
| ChatDatabase.MessageDao.GetMessagesByConversation | app/src/main/java/com/codeassistant/data/database/Dao.kt:10-11 | exactly the conversation's messages, by timestamp ascending |
| ChatDatabase.MessageDao.InsertMessage | app/src/main/java/com/codeassistant/data/database/Dao.kt:13-14 | the message is stored under the returned id; rows with other ids are unchanged |
| ChatDatabase.MessageDao.DeleteMessage | app/src/main/java/com/codeassistant/data/database/Dao.kt:16-17 | the row with the message's id is removed |
| ChatDatabase.MessageDao.DeleteMessagesByConversation | app/src/main/java/com/codeassistant/data/database/Dao.kt:19-20 | exactly the conversation's messages are removed |
| ChatDatabase.ConversationDao.GetAllConversations | app/src/main/java/com/codeassistant/data/database/Dao.kt:25-26 | all conversations, by `updatedAt` descending |
| ChatDatabase.ConversationDao.GetConversationById | app/src/main/java/com/codeassistant/data/database/Dao.kt:28-29 | the conversation with the id, or null exactly when there is none |
| ChatDatabase.ConversationDao.InsertConversation | app/src/main/java/com/codeassistant/data/database/Dao.kt:31-32 | returns the assigned id; the conversation is then found under it |
| ChatDatabase.ConversationDao.UpdateConversation | app/src/main/java/com/codeassistant/data/database/Dao.kt:34-35 | the row with the conversation's id is replaced |
| ChatDatabase.ConversationDao.DeleteConversation | app/src/main/java/com/codeassistant/data/database/Dao.kt:37-38 | the row with the conversation's id is removed |
| ChatDatabase.ConversationDao.DeleteConversationById | app/src/main/java/com/codeassistant/data/database/Dao.kt:40-41 | the conversation is removed and no longer found |
| AppViewModel.TitleFrom | app/src/main/java/com/codeassistant/MainViewModel.kt:96 | a title is the first 30 characters of the text (all of it when shorter) |
| AppViewModel.CanSend | app/src/main/java/com/codeassistant/MainViewModel.kt:85-86 | a send goes ahead exactly when the input is not blank and no reply is pending |
| AppViewModel.RetitleFresh | app/src/main/java/com/codeassistant/MainViewModel.kt:129-133 | a conversation still titled "新对话" takes its title from the text, and no other conversation changes |
| AppViewModel.RetitleOther | app/src/main/java/com/codeassistant/MainViewModel.kt:130-131 | a missing or already-titled conversation is left as it is |
| AppViewModel.OpenedNeedsNoRetitle | app/src/main/java/com/codeassistant/MainViewModel.kt:95-98 | a conversation the send creates already has its final title |
| AppViewModel.ContextHoldsMessage | app/src/main/java/com/codeassistant/MainViewModel.kt:106-112 | the context read back holds the new user message and exactly the conversation's messages |
| AppViewModel.SendMessages | app/src/main/java/com/codeassistant/MainViewModel.kt:84-138 | a send appends the user message and, on success only, the assistant's reply, both in the target conversation |
| AppViewModel.SendConversations | app/src/main/java/com/codeassistant/MainViewModel.kt:95-133 | without a selection exactly one conversation, titled from the text, is added; with one, only its retitle on success changes anything |
| AppViewModel.SendContextHolds | app/src/main/java/com/codeassistant/MainViewModel.kt:112-118 | the context sent is sorted by time, holds the new message, and is exactly the conversation's messages |
| AppViewModel.Toggled | app/src/main/java/com/codeassistant/MainViewModel.kt:166-170 | ACTIVE becomes PAUSED; any other status becomes ACTIVE |
| AppViewModel.ToggleTwice | app/src/main/java/com/codeassistant/MainViewModel.kt:164-180 | toggling twice restores the status exactly when it was ACTIVE or PAUSED |
| AppViewModel.SavedTask | app/src/main/java/com/codeassistant/MainViewModel.kt:153-159 | a new task gets a fresh non-zero id and is otherwise unchanged; an existing one is kept as is |
| AppViewModel.NewTaskArmed | app/src/main/java/com/codeassistant/MainViewModel.kt:153-156 | a new ACTIVE task is stored under the next id and armed at its next run |
| AppViewModel.MainViewModel.Messages | app/src/main/java/com/codeassistant/MainViewModel.kt:32-38 | no selection shows nothing; otherwise exactly the selected conversation's messages |
| AppViewModel.MainViewModel.SetInputText | app/src/main/java/com/codeassistant/MainViewModel.kt:58-60 | only the input text changes |
| AppViewModel.MainViewModel.SelectConversation | app/src/main/java/com/codeassistant/MainViewModel.kt:62-64 | only the selection changes |
| AppViewModel.MainViewModel.CreateNewConversation | app/src/main/java/com/codeassistant/MainViewModel.kt:66-72 | a conversation "新对话" is stored under the next id and selected |
| AppViewModel.MainViewModel.DeleteConversation | app/src/main/java/com/codeassistant/MainViewModel.kt:74-82 | the conversation and its messages are removed; the selection clears if it pointed there |
| AppViewModel.MainViewModel.SendMessage | app/src/main/java/com/codeassistant/MainViewModel.kt:84-138 | blank input or a send in flight changes nothing; otherwise the input clears and the stores become `Sent` of the trimmed text |
| AppViewModel.MainViewModel.Launch | app/src/main/java/com/codeassistant/MainViewModel.kt:90-137 | the coroutine clears the input, performs the send, and resets the loading flag |
| AppViewModel.MainViewModel.Start | app/src/main/java/com/codeassistant/MainViewModel.kt:95-106 | the target conversation is found or created, and the user message is stored in it |
| AppViewModel.MainViewModel.Exchange | app/src/main/java/com/codeassistant/MainViewModel.kt:109-134 | the conversation's messages are sent, and on success the reply is stored and the conversation retitled |
| AppViewModel.MainViewModel.SaveModelConfig | app/src/main/java/com/codeassistant/MainViewModel.kt:142-147 | the configuration is written to the store and applied to the chat client |
| AppViewModel.MainViewModel.SaveTask | app/src/main/java/com/codeassistant/MainViewModel.kt:151-162 | a new task is inserted and an existing one updated, and then the task is scheduled |
| AppViewModel.MainViewModel.ToggleTask | app/src/main/java/com/codeassistant/MainViewModel.kt:164-180 | the status flips, the row is updated, and the task is armed when now ACTIVE or cancelled otherwise |
| AppViewModel.MainViewModel.DeleteTask | app/src/main/java/com/codeassistant/MainViewModel.kt:182-188 | the alarm, the task row and all of the task's executions are removed |
| ChatScreen.ChatSendIsSendWithoutRetitle | app/src/main/java/com/codeassistant/ui/chat/ChatViewModel.kt:59-83 | the chat screen's send equals the main send except that it never retitles |
| ChatScreen.ChatSendKeepsTitles | app/src/main/java/com/codeassistant/ui/chat/ChatViewModel.kt:59-83 | a send to a selected conversation leaves its record untouched |
| ChatScreen.ChatSendMessages | app/src/main/java/com/codeassistant/ui/chat/ChatViewModel.kt:59-83 | the user message and, on success only, the reply are appended to the conversation |
| ChatScreen.ChatViewModel.Messages | app/src/main/java/com/codeassistant/ui/chat/ChatViewModel.kt:28-30 | no selection shows nothing; otherwise exactly the selected conversation's messages |
| ChatScreen.ChatViewModel.SetInputText | app/src/main/java/com/codeassistant/ui/chat/ChatViewModel.kt:40 | only the input text changes |
| ChatScreen.ChatViewModel.SelectConversation | app/src/main/java/com/codeassistant/ui/chat/ChatViewModel.kt:42 | only the selection changes |
| ChatScreen.ChatViewModel.CreateNewConversation | app/src/main/java/com/codeassistant/ui/chat/ChatViewModel.kt:44-49 | a conversation "新对话" is stored under the next id and selected |
| ChatScreen.ChatViewModel.DeleteConversation | app/src/main/java/com/codeassistant/ui/chat/ChatViewModel.kt:51-57 | the conversation and its messages are removed; the selection clears if it pointed there |
| ChatScreen.ChatViewModel.SendMessage | app/src/main/java/com/codeassistant/ui/chat/ChatViewModel.kt:59-83 | blank input or a send in flight changes nothing; otherwise the stores become `ChatSent` of the trimmed text |
| TaskEditor.WeekDaysPermutation | app/src/main/java/com/codeassistant/ui/tasks/TaskEditScreen.kt:35 | the seven chips carry each weekday number 1..7 exactly once |
| TaskEditor.DayLabel | app/src/main/java/com/codeassistant/ui/tasks/TaskEditScreen.kt:35 | a day number has a chip label exactly when it is in 1..7 |
| TaskEditor.NewTaskDaysAsWrittenShowSunday | app/src/main/java/com/codeassistant/ui/tasks/TaskEditScreen.kt:31-35 | the editor's default for a new task, as written, ticks the chips 周日 to 周四, not the working week |
| TaskEditor.NewTaskDaysShowWorkWeek | app/src/main/java/com/codeassistant/ui/tasks/TaskEditScreen.kt:31-35 | the intended default `[2, 3, 4, 5, 6]` ticks exactly the chips 周一 to 周五 |
| TaskEditor.InitialDays | app/src/main/java/com/codeassistant/ui/tasks/TaskEditScreen.kt:30-32 | an edited task starts from its parsed day list (empty for ""); a new task from `listOf(1, 2, 3, 4, 5)`, that is the days 1..5 |
| TaskEditor.ToggleDayFlips | app/src/main/java/com/codeassistant/ui/tasks/TaskEditScreen.kt:195-201 | a chip click flips that day's membership, keeps every other day, and keeps the list free of duplicates |
| TaskEditor.RemoveFirst | app/src/main/java/com/codeassistant/ui/tasks/TaskEditScreen.kt:197 | Kotlin's `list - x` removes one occurrence of x |
| TaskEditor.ToggleDay | app/src/main/java/com/codeassistant/ui/tasks/TaskEditScreen.kt:196-200 | a ticked day loses one occurrence, an unticked one is added once, as multisets |
| TaskEditor.ClampedInput | app/src/main/java/com/codeassistant/ui/tasks/TaskEditScreen.kt:146-164 | a number is clamped into the range; text that is not a number keeps the old value |
| TaskEditor.RetypeKeeps | app/src/main/java/com/codeassistant/ui/tasks/TaskEditScreen.kt:145-163 | retyping the text a field shows keeps a value that is already in range: the hour's `toString()` and the minute's `toString().padStart(2, '0')` |
| TaskEditor.BuildTask | app/src/main/java/com/codeassistant/ui/tasks/TaskEditScreen.kt:49-58 | the saved record keeps the id and status of an edited task (0 and ACTIVE for a new one), and its days parse back to the selection |
| TaskEditor.CanSave | app/src/main/java/com/codeassistant/ui/tasks/TaskEditScreen.kt:61 | the save button is enabled exactly when name and prompt are both non-empty after trimming |
| TaskEditor.ReopenKeepsDays | app/src/main/java/com/codeassistant/ui/tasks/TaskEditScreen.kt:30-56 | reopening a saved task restores the selected days |
| TaskEditor.EditorState.constructor | app/src/main/java/com/codeassistant/ui/tasks/TaskEditScreen.kt:25-32 | the form starts from the task's fields, or from "", "", DAILY, 9:00 and the days `[1, 2, 3, 4, 5]` |
| TaskEditor.EditorState.OnNameInput | app/src/main/java/com/codeassistant/ui/tasks/TaskEditScreen.kt:80 | only the name changes |
| TaskEditor.EditorState.OnPromptInput | app/src/main/java/com/codeassistant/ui/tasks/TaskEditScreen.kt:90 | only the prompt changes |
| TaskEditor.EditorState.OnFrequencyChip | app/src/main/java/com/codeassistant/ui/tasks/TaskEditScreen.kt:110-129 | only the frequency changes; the selected days survive |
| TaskEditor.EditorState.OnHourInput | app/src/main/java/com/codeassistant/ui/tasks/TaskEditScreen.kt:146-148 | a parsed hour is clamped into 0..23; other input is ignored |
| TaskEditor.EditorState.OnMinuteInput | app/src/main/java/com/codeassistant/ui/tasks/TaskEditScreen.kt:162-164 | a parsed minute is clamped into 0..59; other input is ignored |
| TaskEditor.EditorState.OnQuickTime | app/src/main/java/com/codeassistant/ui/tasks/TaskEditScreen.kt:175-177 | a quick chip sets h:00 and nothing else |
| TaskEditor.EditorState.OnDayChip | app/src/main/java/com/codeassistant/ui/tasks/TaskEditScreen.kt:195-201 | the chip's day is toggled; in a duplicate-free list its membership flips and other days stay |
| TaskEditor.EditorState.OnTemplate | app/src/main/java/com/codeassistant/ui/tasks/TaskEditScreen.kt:216-251 | a template sets name, prompt, frequency, hour and minute, and keeps the days |
| TaskEditor.EditorState.Save | app/src/main/java/com/codeassistant/ui/tasks/TaskEditScreen.kt:48-61 | a record is produced exactly when name and prompt are not blank; it keeps the original's id and status, and its days parse back to the selection |

## Left out

- Compose layout, navigation, scrolling, the drawer and the screens' rendering are not modelled; only the state changes behind them are.
- The Android alarm manager, pending intents, the notification channel and manager, the boot and execution receivers, and `showNotification` are modelled as an alarm map and a notification list. An alarm is one-shot: it leaves the map when it fires, which `ExecuteTask` records. The receiver's `taskId > 0` guard (`service/TaskExecutionReceiver.kt`) is a precondition of `ExecuteTask`.
- Coroutines, `Flow` collection, `Dispatchers`, and the races between concurrent launches (for example a second send while the first is in flight) are left out. Each launched block runs to completion, in order.
- Retrofit, OkHttp and Gson are left out. The service builder is a function of the base URL that may fail. Retrofit's `baseUrl` rejects a URL whose path does not end in '/' (and an empty one). The stored default and all three presets in `Models.kt` are such URLs. With them the first send fails with the builder's message, and later sends fail with "API not configured", because the configuration is cached before the build. The HTTP calls are parameters that return a response or throw. JSON decoding of the non-streamed body is taken as done.
- The API key is never attached to requests by the repository's code, so the model sends none either.
- DataStore read and write failures are left out. The one exception `executeTask` can meet before the send is a parameter (`storeFault`).
- Floating-point temperature is an opaque bit pattern. `Float.toString` and `toFloatOrNull` are parameters.
- Time zones and daylight saving are left out (one fixed offset). Dates are proleptic Gregorian; `GregorianCalendar`'s Julian dates before 1582 are not modelled.
- The truncation of the Long task id and the clock to Int (request codes, notification ids) is left out. Nothing in the model depends on those ids.
- Logging (`Log.e`) is left out.
- Each launched block reads the clock once, as the `now` parameter. The source reads it again for each stamp: each message's default `timestamp` (`MainViewModel.kt`, lines 101 and 122), `now` in `calculateNextRunTime` and `lastRunAt` after a run (`TaskScheduler.kt`, lines 88 and 158). The model gives them all the same instant.
- `app.taskScheduler?` is assumed to be present. If it is absent, saving or toggling still writes the row but arms nothing.
- The `TaskExecution` built after a successful run is never inserted by `executeTask`, so `ExecuteTask` stores none either.
- The stream body is the sequence of pieces that `readUtf8Line` returns from the source's own buffer, read to the end. When no newline has arrived yet, `readUtf8Line` returns whatever `exhausted()` has pulled in. So a piece need not be one of the server's lines: an event split across two network reads comes back as two pieces, and its chunk is cut short or lost. The model takes the pieces as given and does not relate them to the server's lines.
- `ChatApi.listModels` and `ModelsResponse` are not used by the core and are left out.
- `data/api/ChatApi.kt` declares `chat` to return a `ChatResponse` and `chatStream` a `ResponseBody`, while `ChatRepository` calls `isSuccessful`, `code()` and `body()` on their results as on a Retrofit `Response`. The model follows the repository: a call returns a status code and an optional body.
- No file of the app defines `ScheduledTask`, although `Database.kt`, `MainViewModel.kt` and `TaskEditScreen.kt` use it; `data/model/Task.kt` defines only `Task`. The view model and the scheduler are modelled on `Task`. The editor's `TaskEditor.ScheduledTask` is reconstructed from the fields `TaskEditScreen.kt` reads and writes.
- Recurrence.CalculateNextRunTime: requires a WEEKLY task to list some weekday 1..7, because otherwise the source's loop never ends (`WeeklyNeverMatches`).
- Scheduling.TaskScheduler.ExecuteTask, Scheduling.TaskScheduler.FinishRun and Scheduling.AfterRun: inherit that precondition for an ACTIVE task only, because a successful run re-schedules the task and only an ACTIVE WEEKLY task reaches the loop; a task in any other status is only cancelled.
- AppViewModel.MainViewModel.SaveTask, AppViewModel.MainViewModel.ToggleTask and AppViewModel.MainViewModel.DeleteTask: the source passes them a `ScheduledTask` (`MainViewModel.kt`, lines 151, 164 and 182); the model passes the `Task` of `data/model/Task.kt`. They read only its `id` and `status`, and the task table and the scheduler they call are typed on `Task`.
- AppViewModel.TitleFrom, ChatScreen.ChatViewModel.SendMessage, Scheduling.RunNotification, TaskEditor.ClampedInput and Text.ParseInt: strings are sequences of Unicode scalar values. Kotlin's `take(30)` and `take(100)` count UTF-16 code units, so on text with characters outside the Basic Multilingual Plane (emoji) the model keeps more characters than the source. `toIntOrNull` on the JVM accepts every Unicode decimal digit (such as fullwidth digits); the model accepts ASCII digits only, which also applies where it reads the stored weekday list and the stored max-tokens entry.
- TaskEditor.ToggleDayFlips: the membership flip is stated for lists without duplicates. Kotlin's `list - x` removes only the first occurrence, so a list with duplicates keeps the day.
- Recurrence.OneTimeMayStayPast: states that a ONE_TIME task's next run is not always after `now`. Only the recurring frequencies are proved to land after `now`.
- Tables.OrderBy: ties in `ORDER BY` are resolved by insertion order; SQLite leaves their order unspecified.

## Findings

| source | as written | input that shows it | evidently intended | confidence | as-written member | corrected member |
|---|---|---|---|---|---|---|
| app/src/main/java/com/codeassistant/service/TaskScheduler.kt:162-164 | a failed run only posts a notification; the one-shot alarm that started the run has fired and no new one is set, while the row stays ACTIVE | an ACTIVE DAILY task whose chat call throws once while the app's process stays alive: it does not run again until the next process start, where `CodeAssistantApp.kt` lines 65-69 schedule every ACTIVE task again, or until the task is saved or toggled. When the alarm itself started the process, that start re-arms the task and the run is not lost | a recurring task stays scheduled after a failed run | low, not executed | Scheduling.FailedRunDisarms | Scheduling.RearmingKeepsSchedule |
| app/src/main/java/com/codeassistant/ui/tasks/TaskEditScreen.kt:31 | a new task starts with days `listOf(1, 2, 3, 4, 5)`, but the chip table on line 35 maps 1 to 周日 and 2..6 to 周一..周五 | open the editor for a new task and switch to WEEKLY: 周日, 周一, 周二, 周三 and 周四 are selected | the working week 周一..周五, that is days 2..6 | medium, not executed | TaskEditor.NewTaskDaysAsWrittenShowSunday | TaskEditor.NewTaskDaysShowWorkWeek |

/** `MainViewModel.kt`: the state behind the chat, settings and task screens.
    Each `viewModelScope.launch` block is modelled as running to completion
    at once; the clock reading that stamps new rows is the parameter
    `now`, and the chat server is the parameter `server`. */
module AppViewModel {
  import opened Wrappers
  import opened Text
  import opened Tables
  import opened Models
  import opened TaskModel
  import opened TaskDatabase
  import opened ChatDatabase
  import opened ChatApi
  import opened Chat
  import opened Settings
  import opened Recurrence
  import opened Scheduling

  /** The title a fresh conversation gets from "new conversation". */
  const NewTitle: string := "新对话"

  /** The title taken from the first message: its first 30 characters. */
  function TitleFrom(text: string): (r: string)
    ensures |r| == if |text| <= 30 then |text| else 30
    ensures r == text[..|r|]
  {
    Take(text, 30)
  }

  /** The guard of `sendMessage`: some non-blank input and no reply pending. */
  predicate CanSend(input: string, loading: bool)
    ensures CanSend(input, loading) <==> !IsBlank(input) && !loading
  {
    TrimEmptyIffBlank(input);
    Trim(input) != [] && !loading
  }

  /** The conversation a message goes to: the selected one, or else the one
      the send creates, whose id is the next the table hands out. */
  function TargetConversation(selected: Option<int>, lastId: int): int {
    if selected.Some? then selected.value else lastId + 1
  }

  /** The conversations once the send has found its conversation: a new one,
      titled from the text, when none was selected. */
  function Opened(rows: seq<Conversation>, selected: Option<int>, lastId: int, text: string, now: int): seq<Conversation> {
    if selected.Some? then rows
    else rows + [Conversation(id := lastId + 1, title := TitleFrom(text), createdAt := now, updatedAt := now)]
  }

  /** After a reply: conversation `c` takes its title from the text if it
      still carries the title of a fresh conversation. */
  function Retitled(rows: seq<Conversation>, c: int, text: string): seq<Conversation> {
    match FindId(rows, ConversationId, c)
    case None => rows
    case Some(conv) =>
      if conv.title == NewTitle then ReplaceId(rows, ConversationId, conv.(title := TitleFrom(text))) else rows
  }

  /** A fresh conversation is retitled from the text; no other conversation
      changes. */
  lemma RetitleFresh(rows: seq<Conversation>, c: int, text: string, k: int)
    requires DistinctIds(rows, ConversationId)
    requires FindId(rows, ConversationId, c).Some? && FindId(rows, ConversationId, c).value.title == NewTitle
    ensures FindId(Retitled(rows, c, text), ConversationId, c)
         == Some(FindId(rows, ConversationId, c).value.(title := TitleFrom(text)))
    ensures k != c ==> FindId(Retitled(rows, c, text), ConversationId, k) == FindId(rows, ConversationId, k)
  {
    var conv := FindId(rows, ConversationId, c).value;
    assert HasId(rows, ConversationId, c);
    FindReplaced(rows, ConversationId, conv.(title := TitleFrom(text)), k);
  }

  /** A conversation with any other title, or a missing one, is left alone. */
  lemma RetitleOther(rows: seq<Conversation>, c: int, text: string)
    requires FindId(rows, ConversationId, c).Some? ==> FindId(rows, ConversationId, c).value.title != NewTitle
    ensures Retitled(rows, c, text) == rows
  {
  }

  /** A conversation the send itself created already has its title from the
      text, so the retitling after the reply changes nothing. */
  lemma {:induction false} OpenedNeedsNoRetitle(rows: seq<Conversation>, lastId: int, text: string, now: int)
    requires WellKeyed(rows, ConversationId, lastId)
    ensures var withConv := Opened(rows, None, lastId, text, now);
            Retitled(withConv, lastId + 1, text) == withConv
  {
    var created := Conversation(id := lastId + 1, title := TitleFrom(text), createdAt := now, updatedAt := now);
    var withConv := rows + [created];
    UpsertFresh(rows, ConversationId, lastId, created);
    UpsertSpec(rows, ConversationId, created);
    FindIdUnique(withConv, ConversationId, created);
    if created.title == NewTitle {
      assert created.(title := TitleFrom(text)) == created;
      ReplaceIdSpec(withConv, ConversationId, created);
      forall i | 0 <= i < |withConv|
        ensures ReplaceId(withConv, ConversationId, created)[i] == withConv[i]
      {
      }
    }
  }

  /** A message as stored, with the id the table hands out. */
  function NewMessage(lastId: int, c: int, role: MessageRole, content: string, now: int): Message {
    Message(id := lastId + 1, conversationId := c, role := role, content := content, timestamp := now)
  }

  /** The context sent with a message is exactly the messages of its
      conversation, oldest first, and holds the new message. */
  lemma ContextHoldsMessage(rows: seq<Message>, lastId: int, c: int, text: string, now: int)
    ensures var sent := NewMessage(lastId, c, USER, text, now);
            var context := ConversationMessages(rows + [sent], c);
            && sent in context
            && (forall m :: m in context <==> m in rows + [sent] && m.conversationId == c)
  {
    var sent := NewMessage(lastId, c, USER, text, now);
    var context := ConversationMessages(rows + [sent], c);
    ConversationMessagesSpec(rows + [sent], c);
    assert multiset(rows + [sent])[sent] > 0;
    assert multiset(context)[sent] > 0;
    forall m
      ensures m in context <==> m in rows + [sent] && m.conversationId == c
    {
      assert m in context <==> multiset(context)[m] > 0;
      assert m in rows + [sent] <==> multiset(rows + [sent])[m] > 0;
    }
  }

  /** The part of the state a send works on: the conversations and the
      messages, each with the id its table last handed out, and the
      repository's cached client. */
  datatype Store = Store(conversations: seq<Conversation>, conversationsLastId: int,
                         messages: seq<Message>, messagesLastId: int, client: Client)

  /** Finding the conversation of a send: the selected one, or a new one
      titled from the text under the next id. */
  function OpenEffect(s: Store, selected: Option<int>, text: string, now: int): Store {
    if selected.Some? then s
    else s.(conversations := Opened(s.conversations, selected, s.conversationsLastId, text, now),
            conversationsLastId := s.conversationsLastId + 1)
  }

  /** Storing a message: it lands at the end under the next id. */
  function PostEffect(s: Store, c: int, role: MessageRole, content: string, now: int): Store {
    s.(messages := s.messages + [NewMessage(s.messagesLastId, c, role, content, now)],
       messagesLastId := s.messagesLastId + 1)
  }

  /** The state after the exchange, given the client it left and its
      result: on success the reply is stored and the conversation
      retitled. */
  function ReplyEffect(s: Store, c: int, text: string, client: Client, result: Result<string, ChatError>, now: int): Store {
    if result.Success? then
      PostEffect(s, c, ASSISTANT, result.value, now).(conversations := Retitled(s.conversations, c, text), client := client)
    else s.(client := client)
  }

  /** The messages that go out with a send: those of its conversation once
      the user's message is stored. */
  function SendContext(s: Store, selected: Option<int>, text: string, now: int): seq<Message> {
    var c := TargetConversation(selected, s.conversationsLastId);
    ConversationMessages(s.messages + [NewMessage(s.messagesLastId, c, USER, text, now)], c)
  }

  /** A whole send of `text` with the conversation `selected`, given the
      client the exchange left and its result. */
  function SendEffect(s: Store, selected: Option<int>, text: string, client: Client,
                      result: Result<string, ChatError>, now: int): Store {
    var c := TargetConversation(selected, s.conversationsLastId);
    ReplyEffect(PostEffect(OpenEffect(s, selected, text, now), c, USER, text, now), c, text, client, result, now)
  }

  /** A send with the stored configuration `config`: the client is brought
      up to date with it and the send's context goes out. */
  function Sent(s: Store, selected: Option<int>, text: string, config: ModelConfig,
                build: string -> Result<Service, string>,
                server: (Service, ChatRequest) -> Call<ChatResponse>, now: int): Store {
    var u := UpdateClient(s.client, config, build);
    SendEffect(s, selected, text, u.0, SimpleOutcome(u, SendContext(s, selected, text, now), config, server), now)
  }

  /** What a send leaves in the messages: the earlier messages are kept,
      the user's message follows them, and the reply follows that exactly
      when the exchange succeeds; the client is the one the exchange left. */
  lemma SendMessages(s: Store, selected: Option<int>, text: string, client: Client,
                     result: Result<string, ChatError>, now: int)
    ensures var c := TargetConversation(selected, s.conversationsLastId);
            var r := SendEffect(s, selected, text, client, result, now);
            && r.client == client
            && |r.messages| == |s.messages| + (if result.Success? then 2 else 1)
            && r.messages[..|s.messages|] == s.messages
            && r.messages[|s.messages|] == NewMessage(s.messagesLastId, c, USER, text, now)
            && (result.Success? ==>
                  r.messages[|s.messages| + 1] == NewMessage(s.messagesLastId + 1, c, ASSISTANT, result.value, now))
            && r.messagesLastId == s.messagesLastId + |r.messages| - |s.messages|
  {
    var c := TargetConversation(selected, s.conversationsLastId);
    var sent := NewMessage(s.messagesLastId, c, USER, text, now);
    var r := SendEffect(s, selected, text, client, result, now);
    if result.Success? {
      assert r.messages == s.messages + [sent] + [NewMessage(s.messagesLastId + 1, c, ASSISTANT, result.value, now)];
    }
  }

  /** What a send leaves in the conversations: without a selection the new
      conversation, titled from the text, is added whatever the exchange
      gives; with one, that conversation is retitled on success only. */
  lemma SendConversations(s: Store, selected: Option<int>, text: string, client: Client,
                          result: Result<string, ChatError>, now: int)
    requires WellKeyed(s.conversations, ConversationId, s.conversationsLastId)
    ensures var c := TargetConversation(selected, s.conversationsLastId);
            var r := SendEffect(s, selected, text, client, result, now);
            && (selected.None? ==>
                  && r.conversationsLastId == c == s.conversationsLastId + 1
                  && r.conversations
                     == s.conversations + [Conversation(id := c, title := TitleFrom(text), createdAt := now, updatedAt := now)])
            && (selected.Some? ==>
                  && r.conversationsLastId == s.conversationsLastId
                  && r.conversations == if result.Success? then Retitled(s.conversations, c, text) else s.conversations)
  {
    if selected.None? {
      OpenedNeedsNoRetitle(s.conversations, s.conversationsLastId, text, now);
    }
  }

  /** The context of a send is exactly the messages of its conversation,
      oldest first, and holds the user's message. */
  lemma SendContextHolds(s: Store, selected: Option<int>, text: string, now: int)
    ensures var c := TargetConversation(selected, s.conversationsLastId);
            var context := SendContext(s, selected, text, now);
            var sent := NewMessage(s.messagesLastId, c, USER, text, now);
            && SortedBy(context, TimestampKey, false)
            && sent in context
            && (forall m :: m in context <==> m in s.messages + [sent] && m.conversationId == c)
  {
    var c := TargetConversation(selected, s.conversationsLastId);
    ContextHoldsMessage(s.messages, s.messagesLastId, c, text, now);
    ConversationMessagesSpec(s.messages + [NewMessage(s.messagesLastId, c, USER, text, now)], c);
  }

  /** `toggleTask`: an ACTIVE task is paused, a task in any other state
      becomes ACTIVE. */
  function Toggled(status: TaskStatus): (r: TaskStatus)
    ensures (r == PAUSED) <==> (status == ACTIVE)
    ensures r == ACTIVE || r == PAUSED
  {
    if status == ACTIVE then PAUSED else ACTIVE
  }

  /** Toggling twice gives back the status exactly for ACTIVE and PAUSED: a
      COMPLETED or DISABLED task comes back ACTIVE. */
  lemma ToggleTwice(status: TaskStatus)
    ensures Toggled(Toggled(status)) == status <==> status == ACTIVE || status == PAUSED
  {
  }

  /** The task `saveTask` schedules: a new task with the id the table hands
      out, an existing one as given. */
  function SavedTask(task: Task, lastId: int): (r: Task)
    ensures r.id != 0 || lastId < 0
    ensures r == task.(id := r.id)
    ensures task.id != 0 ==> r == task
  {
    if task.id == 0 then task.(id := lastId + 1) else task
  }

  /** The rows after the save, before scheduling: a new task is added at the
      end, an existing one replaces the row with its id. */
  function SavedRows(rows: seq<Task>, task: Task, lastId: int): seq<Task> {
    if task.id == 0 then rows + [SavedTask(task, lastId)] else ReplaceId(rows, TaskId, task)
  }

  /** A new ACTIVE task is stored under a fresh id and armed at its next run,
      provided exact alarms are allowed. */
  lemma {:induction false} NewTaskArmed(alarms: Alarms, rows: seq<Task>, task: Task, lastId: int, now: int)
    requires WellKeyed(rows, TaskId, lastId) && task.id == 0 && task.status == ACTIVE && Schedulable(task)
    ensures var saved := SavedTask(task, lastId);
            var r := ScheduleEffect(alarms, SavedRows(rows, task, lastId), saved, now, true);
            && saved.id == lastId + 1
            && r.0 == alarms[saved.id := NextRun(task, now)]
            && FindId(r.1, TaskId, saved.id) == Some(saved.(nextRunAt := Some(NextRun(task, now))))
  {
    var saved := SavedTask(task, lastId);
    NextRunIgnoresRunTimes(task, now, task.lastRunAt, task.nextRunAt);
    assert NextRun(saved, now) == NextRun(task, now);
    var added := rows + [saved];
    UpsertFresh(rows, TaskId, lastId, saved);
    UpsertSpec(rows, TaskId, saved);
    assert added[|rows|] == saved;
    assert HasId(added, TaskId, saved.id);
    ScheduleActive(alarms, added, saved, now, saved.id);
  }

  class MainViewModel {
    const conversationDao: ConversationDao
    const messageDao: MessageDao
    const taskDao: TaskDao
    const taskExecutionDao: TaskExecutionDao
    const chat: ChatRepository
    const settings: SettingsRepository
    /** `app.taskScheduler`, shared with the application. */
    const scheduler: TaskScheduler

    var currentConversationId: Option<int>
    var inputText: string
    var isLoading: bool

    ghost predicate Valid()
      reads conversationDao, messageDao, taskDao, taskExecutionDao, scheduler
    {
      && conversationDao.Valid() && messageDao.Valid() && taskDao.Valid() && taskExecutionDao.Valid()
      && scheduler.taskDao == taskDao && scheduler.chat == chat && scheduler.settings == settings
    }

    constructor (conversationDao: ConversationDao, messageDao: MessageDao, taskDao: TaskDao,
                 taskExecutionDao: TaskExecutionDao, chat: ChatRepository, settings: SettingsRepository,
                 scheduler: TaskScheduler)
      requires conversationDao.Valid() && messageDao.Valid() && taskDao.Valid() && taskExecutionDao.Valid()
      requires scheduler.taskDao == taskDao && scheduler.chat == chat && scheduler.settings == settings
      ensures Valid()
      ensures this.conversationDao == conversationDao && this.messageDao == messageDao
      ensures this.taskDao == taskDao && this.taskExecutionDao == taskExecutionDao
      ensures this.chat == chat && this.settings == settings && this.scheduler == scheduler
      ensures currentConversationId == None && inputText == "" && !isLoading
    {
      this.conversationDao := conversationDao;
      this.messageDao := messageDao;
      this.taskDao := taskDao;
      this.taskExecutionDao := taskExecutionDao;
      this.chat := chat;
      this.settings := settings;
      this.scheduler := scheduler;
      currentConversationId := None;
      inputText := "";
      isLoading := false;
    }

    /** The `messages` flow: the selected conversation's messages, or none. */
    function Messages(): (r: seq<Message>)
      reads this, messageDao
      ensures currentConversationId.None? ==> r == []
      ensures currentConversationId.Some? ==>
                forall m :: m in r <==> m in messageDao.rows && m.conversationId == currentConversationId.value
    {
      match currentConversationId
      case None => []
      case Some(id) =>
        var r := messageDao.GetMessagesByConversation(id);
        assert forall m :: m in r <==> multiset(r)[m] > 0;
        assert forall m :: m in messageDao.rows <==> multiset(messageDao.rows)[m] > 0;
        r
    }

    method SetInputText(text: string)
      modifies this
      ensures inputText == text
      ensures currentConversationId == old(currentConversationId) && isLoading == old(isLoading)
    {
      inputText := text;
    }

    method SelectConversation(id: int)
      modifies this
      ensures currentConversationId == Some(id)
      ensures inputText == old(inputText) && isLoading == old(isLoading)
    {
      currentConversationId := Some(id);
    }

    /** `createNewConversation`: a conversation titled as a fresh one is added
        and selected. */
    method CreateNewConversation(now: int)
      requires Valid()
      modifies this, conversationDao
      ensures Valid()
      ensures currentConversationId.Some? && currentConversationId.value == old(conversationDao.lastId) + 1
      ensures conversationDao.rows
           == old(conversationDao.rows) + [Conversation(id := old(conversationDao.lastId) + 1, title := NewTitle,
                                                         createdAt := now, updatedAt := now)]
      ensures conversationDao.GetConversationById(currentConversationId.value)
           == Some(Conversation(id := currentConversationId.value, title := NewTitle, createdAt := now, updatedAt := now))
      ensures inputText == old(inputText) && isLoading == old(isLoading)
    {
      var conversation := Conversation(title := NewTitle, createdAt := now, updatedAt := now);
      UpsertFresh(conversationDao.rows, ConversationId, conversationDao.lastId,
                  conversation.(id := conversationDao.lastId + 1));
      var id := conversationDao.InsertConversation(conversation);
      currentConversationId := Some(id);
    }

    /** `deleteConversation`: its messages and the conversation go; the
        selection is cleared only if it was this conversation. */
    method DeleteConversation(id: int)
      requires Valid()
      modifies this, messageDao, conversationDao
      ensures Valid()
      ensures forall m :: m in messageDao.rows <==> m in old(messageDao.rows) && m.conversationId != id
      ensures conversationDao.rows == RemoveId(old(conversationDao.rows), ConversationId, id)
      ensures conversationDao.GetConversationById(id) == None
      ensures currentConversationId == if old(currentConversationId) == Some(id) then None else old(currentConversationId)
      ensures inputText == old(inputText) && isLoading == old(isLoading)
    {
      messageDao.DeleteMessagesByConversation(id);
      conversationDao.DeleteConversationById(id);
      if currentConversationId == Some(id) {
        currentConversationId := None;
      }
    }

    /** The tables and the client a send works on. */
    function State(): Store
      reads conversationDao, messageDao, chat
    {
      Store(conversationDao.rows, conversationDao.lastId, messageDao.rows, messageDao.lastId,
            Client(chat.currentConfig, chat.apiService))
    }

    /** `sendMessage`: nothing happens without some non-blank input or while
        a reply is pending; otherwise the input is cleared and the send runs
        with the stored configuration. */
    method SendMessage(now: int, server: (Service, ChatRequest) -> Call<ChatResponse>)
      requires Valid()
      modifies this, messageDao, conversationDao, chat
      ensures Valid()
      ensures !CanSend(old(inputText), old(isLoading)) ==> unchanged(this, messageDao, conversationDao) && State() == old(State())
      ensures CanSend(old(inputText), old(isLoading)) ==>
                && inputText == "" && !isLoading && currentConversationId == old(currentConversationId)
                && State() == Sent(old(State()), old(currentConversationId), Trim(old(inputText)),
                                   settings.Config(), chat.buildService, server, now)
    {
      var text := Trim(inputText);
      if text == [] || isLoading {
        return;
      }
      Launch(text, currentConversationId, now, server);
    }

    /** The body `sendMessage` launches once the guard has passed. */
    method Launch(text: string, conversationId: Option<int>, now: int, server: (Service, ChatRequest) -> Call<ChatResponse>)
      requires Valid()
      modifies this, messageDao, conversationDao, chat
      ensures Valid()
      ensures inputText == "" && !isLoading && currentConversationId == old(currentConversationId)
      ensures State() == Sent(old(State()), conversationId, text, settings.Config(), chat.buildService, server, now)
    {
      var config := settings.Config();
      isLoading := true;
      inputText := "";
      Deliver(text, conversationId, config, now, server);
      isLoading := false;
    }

    /** The send proper, with the configuration read from the settings. */
    method Deliver(text: string, conversationId: Option<int>, config: ModelConfig, now: int,
                   server: (Service, ChatRequest) -> Call<ChatResponse>)
      requires Valid()
      modifies messageDao, conversationDao, chat
      ensures Valid()
      ensures State() == Sent(old(State()), conversationId, text, config, chat.buildService, server, now)
    {
      var c := Start(text, conversationId, now);
      var _ := Exchange(c, text, config, now, server);
    }

    /** The user's message is stored in the conversation of the send. */
    method Start(text: string, conversationId: Option<int>, now: int) returns (c: int)
      requires Valid()
      modifies messageDao, conversationDao
      ensures Valid()
      ensures c == TargetConversation(conversationId, old(State()).conversationsLastId)
      ensures State() == PostEffect(OpenEffect(old(State()), conversationId, text, now), c, USER, text, now)
    {
      c := OpenConversation(text, conversationId, now);
      PostMessage(c, USER, text, now);
    }

    /** `messageDao.insertMessage` of a new message. */
    method PostMessage(c: int, role: MessageRole, content: string, now: int)
      requires Valid()
      modifies messageDao
      ensures Valid()
      ensures State() == PostEffect(old(State()), c, role, content, now)
    {
      var message := Message(conversationId := c, role := role, content := content, timestamp := now);
      UpsertFresh(messageDao.rows, MessageId, messageDao.lastId, message.(id := messageDao.lastId + 1));
      var _ := messageDao.InsertMessage(message);
    }

    /** The exchange of a send, once the user's message is stored. */
    method Exchange(c: int, text: string, config: ModelConfig, now: int,
                    server: (Service, ChatRequest) -> Call<ChatResponse>)
      returns (result: Result<string, ChatError>)
      requires Valid()
      modifies messageDao, conversationDao, chat
      ensures Valid()
      ensures var u := UpdateClient(old(State()).client, config, chat.buildService);
              && result == SimpleOutcome(u, ConversationMessages(old(State()).messages, c), config, server)
              && State() == ReplyEffect(old(State()), c, text, u.0, result, now)
    {
      var allMessages := messageDao.GetMessagesByConversation(c);
      result := chat.SendMessageSimple(allMessages, config, server);
      if result.Success? {
        PostMessage(c, ASSISTANT, result.value, now);
        Retitle(c, text);
      }
    }

    /** The retitling after a reply. */
    method Retitle(c: int, text: string)
      requires Valid()
      modifies conversationDao
      ensures Valid()
      ensures State() == old(State()).(conversations := Retitled(old(State()).conversations, c, text))
    {
      var conv := conversationDao.GetConversationById(c);
      if conv.Some? && conv.value.title == NewTitle {
        conversationDao.UpdateConversation(conv.value.(title := TitleFrom(text)));
      }
    }

    /** The conversation of a send: the selected one, or a new one titled
        from the text. */
    method OpenConversation(text: string, conversationId: Option<int>, now: int) returns (c: int)
      requires Valid()
      modifies conversationDao
      ensures Valid()
      ensures c == TargetConversation(conversationId, old(State()).conversationsLastId)
      ensures State() == OpenEffect(old(State()), conversationId, text, now)
    {
      if conversationId.Some? {
        return conversationId.value;
      }
      var conversation := Conversation(title := TitleFrom(text), createdAt := now, updatedAt := now);
      UpsertFresh(conversationDao.rows, ConversationId, conversationDao.lastId,
                  conversation.(id := conversationDao.lastId + 1));
      c := conversationDao.InsertConversation(conversation);
    }

    /** `saveModelConfig`: the configuration is stored, then the client is
        updated; the builder's exception, if any, escapes. */
    method SaveModelConfig(config: ModelConfig) returns (thrown: Option<string>)
      modifies settings, chat
      ensures settings.prefs == EncodeConfig(old(settings.prefs), config, settings.formatFloat)
      ensures (Client(chat.currentConfig, chat.apiService), thrown)
           == UpdateClient(Client(old(chat.currentConfig), old(chat.apiService)), config, chat.buildService)
    {
      settings.SaveModelConfig(config);
      thrown := chat.UpdateConfig(config);
    }

    /** `saveTask`: a task with id 0 is inserted and scheduled under its new
        id; any other is updated and scheduled. */
    method SaveTask(task: Task, now: int)
      requires Valid() && (task.status == ACTIVE ==> Schedulable(task))
      modifies taskDao, scheduler
      ensures Valid()
      ensures var saved := SavedTask(task, old(taskDao.lastId));
              (scheduler.alarms, taskDao.rows)
              == ScheduleEffect(old(scheduler.alarms), SavedRows(old(taskDao.rows), task, old(taskDao.lastId)),
                                saved, now, scheduler.exactAlarmsAllowed)
      ensures scheduler.notifications == old(scheduler.notifications)
    {
      if task.id == 0 {
        UpsertFresh(taskDao.rows, TaskId, taskDao.lastId, task.(id := taskDao.lastId + 1));
        var id := taskDao.InsertTask(task);
        var newTask := task.(id := id);
        assert newTask.status == ACTIVE ==> Schedulable(newTask);
        scheduler.ScheduleTask(newTask, now);
      } else {
        taskDao.UpdateTask(task);
        scheduler.ScheduleTask(task, now);
      }
    }

    /** `toggleTask`: the task's status is flipped and stored; it is then
        scheduled if ACTIVE and cancelled otherwise, which is what
        `scheduleTask` does for either status. */
    method ToggleTask(task: Task, now: int)
      requires Valid() && (task.status != ACTIVE ==> Schedulable(task))
      modifies taskDao, scheduler
      ensures Valid()
      ensures var updated := task.(status := Toggled(task.status));
              (scheduler.alarms, taskDao.rows)
              == ScheduleEffect(old(scheduler.alarms), ReplaceId(old(taskDao.rows), TaskId, updated),
                                updated, now, scheduler.exactAlarmsAllowed)
      ensures scheduler.notifications == old(scheduler.notifications)
    {
      var newStatus := if task.status == ACTIVE then PAUSED else ACTIVE;
      var updatedTask := task.(status := newStatus);
      taskDao.UpdateTask(updatedTask);
      if newStatus == ACTIVE {
        NextRunIgnoresRunTimes(task, now, task.lastRunAt, task.nextRunAt);
        scheduler.ScheduleTask(updatedTask, now);
      } else {
        scheduler.CancelTask(updatedTask);
      }
    }

    /** `deleteTask`: the alarm is cancelled, then the task and its
        executions are deleted. */
    method DeleteTask(task: Task)
      requires Valid()
      modifies taskDao, taskExecutionDao, scheduler
      ensures Valid()
      ensures scheduler.alarms == old(scheduler.alarms) - {task.id}
      ensures taskDao.rows == RemoveId(old(taskDao.rows), TaskId, task.id)
      ensures forall e :: e in taskExecutionDao.rows <==> e in old(taskExecutionDao.rows) && e.taskId != task.id
      ensures scheduler.notifications == old(scheduler.notifications)
    {
      scheduler.CancelTask(task);
      taskDao.DeleteTask(task);
      taskExecutionDao.DeleteExecutionsByTask(task.id);
    }
  }
}

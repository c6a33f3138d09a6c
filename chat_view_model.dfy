/** `ui/chat/ChatViewModel.kt`: the chat screen's own view model.  It
    works on the same tables and repository as `MainViewModel`, but its
    send never retitles a conversation, and it reads the selection inside
    the launched block.  As in `AppViewModel`, each launched block runs to
    completion at once, with the clock reading `now` and the chat server
    `server` as parameters. */
module ChatScreen {
  import opened Wrappers
  import opened Text
  import opened Tables
  import opened Models
  import opened ChatDatabase
  import opened ChatApi
  import opened Chat
  import opened Settings
  import opened AppViewModel

  /** The state after the exchange, given the client it left and its
      result: on success the reply is stored, and nothing else changes. */
  function ChatReplyEffect(s: Store, c: int, client: Client, result: Result<string, ChatError>, now: int): Store {
    if result.Success? then PostEffect(s, c, ASSISTANT, result.value, now).(client := client)
    else s.(client := client)
  }

  /** A whole send of `text` with the conversation `selected`, given the
      client the exchange left and its result. */
  function ChatSendEffect(s: Store, selected: Option<int>, text: string, client: Client,
                          result: Result<string, ChatError>, now: int): Store {
    var c := TargetConversation(selected, s.conversationsLastId);
    ChatReplyEffect(PostEffect(OpenEffect(s, selected, text, now), c, USER, text, now), c, client, result, now)
  }

  /** A send with the stored configuration `config`. */
  function ChatSent(s: Store, selected: Option<int>, text: string, config: ModelConfig,
                    build: string -> Result<Service, string>,
                    server: (Service, ChatRequest) -> Call<ChatResponse>, now: int): Store {
    var u := UpdateClient(s.client, config, build);
    ChatSendEffect(s, selected, text, u.0, SimpleOutcome(u, SendContext(s, selected, text, now), config, server), now)
  }

  /** This send differs from the main view model's only in the titles: the
      messages, the ids and the client come out the same, and the
      conversations are only those the send opened. */
  lemma ChatSendIsSendWithoutRetitle(s: Store, selected: Option<int>, text: string, client: Client,
                                     result: Result<string, ChatError>, now: int)
    ensures var main := SendEffect(s, selected, text, client, result, now);
            ChatSendEffect(s, selected, text, client, result, now)
            == main.(conversations := Opened(s.conversations, selected, s.conversationsLastId, text, now))
  {
  }

  /** Titles are never updated: an existing conversation keeps its title
      whatever the exchange gives, even the title of a fresh conversation
      that the main view model would replace. */
  lemma ChatSendKeepsTitles(s: Store, c: int, text: string, client: Client,
                            result: Result<string, ChatError>, now: int)
    requires DistinctIds(s.conversations, ConversationId)
    requires FindId(s.conversations, ConversationId, c).Some?
    ensures var r := ChatSendEffect(s, Some(c), text, client, result, now);
            FindId(r.conversations, ConversationId, c) == FindId(s.conversations, ConversationId, c)
  {
  }

  /** The messages of a send, as in the main view model: the earlier ones
      are kept, the user's message follows them, and the reply follows that
      exactly on success. */
  lemma {:induction false} ChatSendMessages(s: Store, selected: Option<int>, text: string, client: Client,
                                            result: Result<string, ChatError>, now: int)
    ensures var c := TargetConversation(selected, s.conversationsLastId);
            var r := ChatSendEffect(s, selected, text, client, result, now);
            && r.client == client
            && |r.messages| == |s.messages| + (if result.Success? then 2 else 1)
            && r.messages[..|s.messages|] == s.messages
            && r.messages[|s.messages|] == NewMessage(s.messagesLastId, c, USER, text, now)
            && (result.Success? ==>
                  r.messages[|s.messages| + 1] == NewMessage(s.messagesLastId + 1, c, ASSISTANT, result.value, now))
  {
    ChatSendIsSendWithoutRetitle(s, selected, text, client, result, now);
    SendMessages(s, selected, text, client, result, now);
  }

  class ChatViewModel {
    const conversationDao: ConversationDao
    const messageDao: MessageDao
    const chat: ChatRepository
    const settings: SettingsRepository

    var currentConversationId: Option<int>
    var inputText: string
    var isLoading: bool

    ghost predicate Valid()
      reads conversationDao, messageDao
    {
      conversationDao.Valid() && messageDao.Valid()
    }

    constructor (conversationDao: ConversationDao, messageDao: MessageDao, chat: ChatRepository,
                 settings: SettingsRepository)
      requires conversationDao.Valid() && messageDao.Valid()
      ensures Valid()
      ensures this.conversationDao == conversationDao && this.messageDao == messageDao
      ensures this.chat == chat && this.settings == settings
      ensures currentConversationId == None && inputText == "" && !isLoading
    {
      this.conversationDao := conversationDao;
      this.messageDao := messageDao;
      this.chat := chat;
      this.settings := settings;
      currentConversationId := None;
      inputText := "";
      isLoading := false;
    }

    /** The tables and the client a send works on. */
    function State(): Store
      reads conversationDao, messageDao, chat
    {
      Store(conversationDao.rows, conversationDao.lastId, messageDao.rows, messageDao.lastId,
            Client(chat.currentConfig, chat.apiService))
    }

    /** The `messages` flow: the selected conversation's messages, or none. */
    function Messages(): (r: seq<Message>)
      reads this, messageDao
      ensures currentConversationId.None? ==> r == []
      ensures currentConversationId.Some? ==>
                forall m :: m in r <==> m in messageDao.rows && m.conversationId == currentConversationId.value
    {
      match currentConversationId
      case None => []
      case Some(id) =>
        var r := messageDao.GetMessagesByConversation(id);
        assert forall m :: m in r <==> multiset(r)[m] > 0;
        assert forall m :: m in messageDao.rows <==> multiset(messageDao.rows)[m] > 0;
        r
    }

    method SetInputText(text: string)
      modifies this
      ensures inputText == text
      ensures currentConversationId == old(currentConversationId) && isLoading == old(isLoading)
    {
      inputText := text;
    }

    method SelectConversation(id: int)
      modifies this
      ensures currentConversationId == Some(id)
      ensures inputText == old(inputText) && isLoading == old(isLoading)
    {
      currentConversationId := Some(id);
    }

    /** `createNewConversation`: a conversation titled as a fresh one is added
        and selected. */
    method CreateNewConversation(now: int)
      requires Valid()
      modifies this, conversationDao
      ensures Valid()
      ensures currentConversationId == Some(old(conversationDao.lastId) + 1)
      ensures conversationDao.rows
           == old(conversationDao.rows) + [Conversation(id := old(conversationDao.lastId) + 1, title := NewTitle,
                                                         createdAt := now, updatedAt := now)]
      ensures inputText == old(inputText) && isLoading == old(isLoading)
    {
      var conversation := Conversation(title := NewTitle, createdAt := now, updatedAt := now);
      UpsertFresh(conversationDao.rows, ConversationId, conversationDao.lastId,
                  conversation.(id := conversationDao.lastId + 1));
      var id := conversationDao.InsertConversation(conversation);
      currentConversationId := Some(id);
    }

    /** `deleteConversation`: its messages and the conversation go; the
        selection is cleared only if it was this conversation. */
    method DeleteConversation(id: int)
      requires Valid()
      modifies this, messageDao, conversationDao
      ensures Valid()
      ensures forall m :: m in messageDao.rows <==> m in old(messageDao.rows) && m.conversationId != id
      ensures conversationDao.rows == RemoveId(old(conversationDao.rows), ConversationId, id)
      ensures conversationDao.GetConversationById(id) == None
      ensures currentConversationId == if old(currentConversationId) == Some(id) then None else old(currentConversationId)
      ensures inputText == old(inputText) && isLoading == old(isLoading)
    {
      messageDao.DeleteMessagesByConversation(id);
      conversationDao.DeleteConversationById(id);
      if currentConversationId == Some(id) {
        currentConversationId := None;
      }
    }

    /** `sendMessage`: nothing happens without some non-blank input or while
        a reply is pending; otherwise the input is cleared and the send runs
        with the stored configuration. */
    method SendMessage(now: int, server: (Service, ChatRequest) -> Call<ChatResponse>)
      requires Valid()
      modifies this, messageDao, conversationDao, chat
      ensures Valid()
      ensures !CanSend(old(inputText), old(isLoading)) ==> unchanged(this, messageDao, conversationDao) && State() == old(State())
      ensures CanSend(old(inputText), old(isLoading)) ==>
                && inputText == "" && !isLoading && currentConversationId == old(currentConversationId)
                && State() == ChatSent(old(State()), old(currentConversationId), Trim(old(inputText)),
                                       settings.Config(), chat.buildService, server, now)
    {
      var text := Trim(inputText);
      if text == [] || isLoading {
        return;
      }
      Launch(text, now, server);
    }

    /** The block `sendMessage` launches once the guard has passed; it reads
        the selection itself. */
    method Launch(text: string, now: int, server: (Service, ChatRequest) -> Call<ChatResponse>)
      requires Valid()
      modifies this, messageDao, conversationDao, chat
      ensures Valid()
      ensures inputText == "" && !isLoading && currentConversationId == old(currentConversationId)
      ensures State() == ChatSent(old(State()), old(currentConversationId), text, settings.Config(), chat.buildService, server, now)
    {
      isLoading := true;
      inputText := "";
      assert State() == old(State());
      Deliver(text, currentConversationId, settings.Config(), now, server);
      isLoading := false;
    }

    /** The send proper, with the configuration read from the settings. */
    method Deliver(text: string, conversationId: Option<int>, config: ModelConfig, now: int,
                   server: (Service, ChatRequest) -> Call<ChatResponse>)
      requires Valid()
      modifies messageDao, conversationDao, chat
      ensures Valid()
      ensures State() == ChatSent(old(State()), conversationId, text, config, chat.buildService, server, now)
    {
      var c := Start(text, conversationId, now);
      var _ := Exchange(c, config, now, server);
    }

    /** The user's message is stored in the conversation of the send,
        which is created, titled from the text, when none is selected. */
    method Start(text: string, conversationId: Option<int>, now: int) returns (c: int)
      requires Valid()
      modifies messageDao, conversationDao
      ensures Valid()
      ensures c == TargetConversation(conversationId, old(State()).conversationsLastId)
      ensures State() == PostEffect(OpenEffect(old(State()), conversationId, text, now), c, USER, text, now)
    {
      if conversationId.Some? {
        c := conversationId.value;
      } else {
        var conversation := Conversation(title := TitleFrom(text), createdAt := now, updatedAt := now);
        UpsertFresh(conversationDao.rows, ConversationId, conversationDao.lastId,
                    conversation.(id := conversationDao.lastId + 1));
        c := conversationDao.InsertConversation(conversation);
      }
      PostMessage(c, USER, text, now);
    }

    /** `messageDao.insertMessage` of a new message. */
    method PostMessage(c: int, role: MessageRole, content: string, now: int)
      requires Valid()
      modifies messageDao
      ensures Valid()
      ensures State() == PostEffect(old(State()), c, role, content, now)
    {
      var message := Message(conversationId := c, role := role, content := content, timestamp := now);
      UpsertFresh(messageDao.rows, MessageId, messageDao.lastId, message.(id := messageDao.lastId + 1));
      var _ := messageDao.InsertMessage(message);
    }

    /** The exchange of a send, once the user's message is stored: on
        success the reply is stored. */
    method Exchange(c: int, config: ModelConfig, now: int, server: (Service, ChatRequest) -> Call<ChatResponse>)
      returns (result: Result<string, ChatError>)
      requires Valid()
      modifies messageDao, chat
      ensures Valid()
      ensures var u := UpdateClient(old(State()).client, config, chat.buildService);
              && result == SimpleOutcome(u, ConversationMessages(old(State()).messages, c), config, server)
              && State() == ChatReplyEffect(old(State()), c, u.0, result, now)
    {
      var allMessages := messageDao.GetMessagesByConversation(c);
      result := chat.SendMessageSimple(allMessages, config, server);
      if result.Success? {
        PostMessage(c, ASSISTANT, result.value, now);
      }
    }
  }
}

/** `data/database/Dao.kt`: the `messages` and `conversations` tables as
    in-memory tables. */
module ChatDatabase {
  import opened Wrappers
  import opened Tables
  import opened Models

  function MessageId(m: Message): int { m.id }

  function TimestampKey(m: Message): Key { Val(m.timestamp) }

  function ConversationId(c: Conversation): int { c.id }

  function UpdatedAtKey(c: Conversation): Key { Val(c.updatedAt) }

  /** The messages of one conversation, oldest first. */
  function ConversationMessages(rows: seq<Message>, conversationId: int): seq<Message> {
    Where(OrderBy(rows, TimestampKey, false), (m: Message) => m.conversationId == conversationId)
  }

  lemma ConversationMessagesSpec(rows: seq<Message>, conversationId: int)
    ensures var r := ConversationMessages(rows, conversationId);
            && SortedBy(r, TimestampKey, false)
            && forall m :: multiset(r)[m] == if m.conversationId == conversationId then multiset(rows)[m] else 0
  {
    var p := (m: Message) => m.conversationId == conversationId;
    WhereSorted(OrderBy(rows, TimestampKey, false), p, TimestampKey, false);
  }

  class MessageDao {
    /** The rows of `messages`, in insertion order. */
    var rows: seq<Message>
    var lastId: int

    ghost predicate Valid()
      reads this
    {
      WellKeyed(rows, MessageId, lastId)
    }

    constructor ()
      ensures rows == [] && lastId == 0 && Valid()
    {
      rows := [];
      lastId := 0;
    }

    /** `... WHERE conversationId = :conversationId ORDER BY timestamp ASC`. */
    function GetMessagesByConversation(conversationId: int): (r: seq<Message>)
      reads this
      ensures SortedBy(r, TimestampKey, false)
      ensures forall m :: multiset(r)[m] == if m.conversationId == conversationId then multiset(rows)[m] else 0
    {
      ConversationMessagesSpec(rows, conversationId);
      ConversationMessages(rows, conversationId)
    }

    /** `@Insert(onConflict = REPLACE)`. */
    method InsertMessage(message: Message) returns (id: int)
      requires Valid()
      modifies this
      ensures Valid()
      ensures id == AssignedId(message.id, old(lastId))
      ensures rows == Upsert(old(rows), MessageId, message.(id := id))
      ensures lastId == if id > old(lastId) then id else old(lastId)
      ensures message.(id := id) in rows
      ensures forall m: Message :: m.id != id ==> (m in rows <==> m in old(rows))
    {
      id := AssignedId(message.id, lastId);
      var row := message.(id := id);
      UpsertKeeps(rows, MessageId, lastId, row);
      UpsertSpec(rows, MessageId, row);
      rows := Upsert(rows, MessageId, row);
      if id > lastId {
        lastId := id;
      }
    }

    /** `@Delete`. */
    method DeleteMessage(message: Message)
      requires Valid()
      modifies this
      ensures Valid() && lastId == old(lastId)
      ensures rows == RemoveId(old(rows), MessageId, message.id)
    {
      RemoveKeeps(rows, MessageId, lastId, message.id);
      rows := RemoveId(rows, MessageId, message.id);
    }

    /** `DELETE FROM messages WHERE conversationId = :conversationId`. */
    method DeleteMessagesByConversation(conversationId: int)
      requires Valid()
      modifies this
      ensures Valid() && lastId == old(lastId)
      ensures rows == Where(old(rows), (m: Message) => m.conversationId != conversationId)
      ensures forall m :: m in rows <==> m in old(rows) && m.conversationId != conversationId
    {
      var p := (m: Message) => m.conversationId != conversationId;
      WhereKeeps(rows, p, MessageId, lastId);
      ghost var before := rows;
      rows := Where(rows, p);
      forall m
        ensures m in rows <==> m in before && m.conversationId != conversationId
      {
        assert m in rows <==> m in multiset(rows);
      }
    }
  }

  class ConversationDao {
    /** The rows of `conversations`, in insertion order. */
    var rows: seq<Conversation>
    var lastId: int

    ghost predicate Valid()
      reads this
    {
      WellKeyed(rows, ConversationId, lastId)
    }

    constructor ()
      ensures rows == [] && lastId == 0 && Valid()
    {
      rows := [];
      lastId := 0;
    }

    /** `SELECT * FROM conversations ORDER BY updatedAt DESC`. */
    function GetAllConversations(): (r: seq<Conversation>)
      reads this
      ensures SortedBy(r, UpdatedAtKey, true)
      ensures multiset(r) == multiset(rows)
    {
      OrderBy(rows, UpdatedAtKey, true)
    }

    /** `SELECT * FROM conversations WHERE id = :id`: the row, or null. */
    function GetConversationById(id: int): (r: Option<Conversation>)
      reads this
      ensures r.Some? ==> r.value in rows && r.value.id == id
      ensures r.None? <==> forall i :: 0 <= i < |rows| ==> rows[i].id != id
    {
      FindId(rows, ConversationId, id)
    }

    /** `@Insert(onConflict = REPLACE)`. */
    method InsertConversation(conversation: Conversation) returns (id: int)
      requires Valid()
      modifies this
      ensures Valid()
      ensures id == AssignedId(conversation.id, old(lastId))
      ensures rows == Upsert(old(rows), ConversationId, conversation.(id := id))
      ensures lastId == if id > old(lastId) then id else old(lastId)
      ensures GetConversationById(id) == Some(conversation.(id := id))
    {
      id := AssignedId(conversation.id, lastId);
      var row := conversation.(id := id);
      UpsertKeeps(rows, ConversationId, lastId, row);
      UpsertSpec(rows, ConversationId, row);
      rows := Upsert(rows, ConversationId, row);
      if id > lastId {
        lastId := id;
      }
      FindIdUnique(rows, ConversationId, row);
    }

    /** `@Update`: replaces the row with the conversation's id; nothing if absent. */
    method UpdateConversation(conversation: Conversation)
      requires Valid()
      modifies this
      ensures Valid() && lastId == old(lastId)
      ensures rows == ReplaceId(old(rows), ConversationId, conversation)
    {
      ReplaceKeeps(rows, ConversationId, lastId, conversation);
      rows := ReplaceId(rows, ConversationId, conversation);
    }

    /** `@Delete`. */
    method DeleteConversation(conversation: Conversation)
      requires Valid()
      modifies this
      ensures Valid() && lastId == old(lastId)
      ensures rows == RemoveId(old(rows), ConversationId, conversation.id)
    {
      RemoveKeeps(rows, ConversationId, lastId, conversation.id);
      rows := RemoveId(rows, ConversationId, conversation.id);
    }

    /** `DELETE FROM conversations WHERE id = :id`. */
    method DeleteConversationById(id: int)
      requires Valid()
      modifies this
      ensures Valid() && lastId == old(lastId)
      ensures rows == RemoveId(old(rows), ConversationId, id)
      ensures GetConversationById(id) == None
    {
      RemoveKeeps(rows, ConversationId, lastId, id);
      rows := RemoveId(rows, ConversationId, id);
    }
  }
}

/**
 * The chat-history database of the main process: a `conversations` table
 * keyed by `id`, and a `messages` table whose `conversation_id` is a foreign
 * key into it with `ON DELETE CASCADE` (foreign keys are switched on when the
 * database opens).
 *
 * The store is the two tables held in memory: conversations by id, messages
 * in insertion order. Ids (uuid v4 in the source) and the `datetime('now')`
 * timestamps are supplied by the caller; a timestamp is a number of seconds.
 */
module ConversationStore {
  import opened Common
  import opened Ordering

  /** A row of `conversations`. */
  datatype Conversation = Conversation(id: string, title: string, modelName: string, createdAt: nat)

  /** A row of `messages`. */
  datatype StoredMessage = StoredMessage(
    id: string, conversationId: string, role: string, content: string, createdAt: nat)

  /** The constraint a rejected write ran into. */
  datatype DbError = PrimaryKeyViolation | ForeignKeyViolation

  datatype Result<T> = Ok(value: T) | Err(error: DbError)

  /** Sort key of `ORDER BY created_at ASC` on messages. */
  function MessageTime(m: StoredMessage): int
  {
    m.createdAt
  }

  /** Sort key of `ORDER BY created_at DESC` on conversations. */
  function NewestFirst(c: Conversation): int
  {
    -(c.createdAt as int)
  }

  /** `WHERE conversation_id = ?`, in table order. */
  function MessagesOf(ms: seq<StoredMessage>, conversationId: string): (r: seq<StoredMessage>)
    ensures forall m :: m in r <==> m in ms && m.conversationId == conversationId
  {
    if ms == [] then []
    else
      var init := MessagesOf(ms[..|ms| - 1], conversationId);
      var last := ms[|ms| - 1];
      assert ms == ms[..|ms| - 1] + [last];
      if last.conversationId == conversationId then init + [last] else init
  }

  /** The messages the cascade keeps when a conversation is deleted, in table order. */
  function WithoutConversation(ms: seq<StoredMessage>, conversationId: string): (r: seq<StoredMessage>)
    ensures forall m :: m in r <==> m in ms && m.conversationId != conversationId
  {
    if ms == [] then []
    else
      var init := WithoutConversation(ms[..|ms| - 1], conversationId);
      var last := ms[|ms| - 1];
      assert ms == ms[..|ms| - 1] + [last];
      if last.conversationId != conversationId then init + [last] else init
  }

  /** The two filters split the table: every row goes to exactly one side. */
  lemma {:induction false} FiltersPartition(ms: seq<StoredMessage>, conversationId: string)
    ensures multiset(MessagesOf(ms, conversationId)) + multiset(WithoutConversation(ms, conversationId)) == multiset(ms)
  {
    if ms != [] {
      var init := ms[..|ms| - 1];
      FiltersPartition(init, conversationId);
      assert ms == init + [ms[|ms| - 1]];
    }
  }

  /** No two rows share a message id. */
  predicate UniqueIds(ms: seq<StoredMessage>)
  {
    forall i, j :: 0 <= i < j < |ms| ==> ms[i].id != ms[j].id
  }

  /** The cascade removes rows and never duplicates one, so message ids stay
      unique. */
  lemma {:induction false} CascadeKeepsIdsUnique(ms: seq<StoredMessage>, conversationId: string)
    requires UniqueIds(ms)
    ensures UniqueIds(WithoutConversation(ms, conversationId))
  {
    if ms != [] {
      var init := ms[..|ms| - 1];
      var last := ms[|ms| - 1];
      assert UniqueIds(init) by {
        forall i, j | 0 <= i < j < |init| ensures init[i].id != init[j].id {
          assert init[i] == ms[i] && init[j] == ms[j];
        }
      }
      CascadeKeepsIdsUnique(init, conversationId);
      var kept := WithoutConversation(init, conversationId);
      if last.conversationId != conversationId {
        forall i | 0 <= i < |kept| ensures kept[i].id != last.id {
          assert kept[i] in init;
          var k :| 0 <= k < |init| && init[k] == kept[i];
          assert ms[k] == kept[i];
        }
        var r := kept + [last];
        forall i, j | 0 <= i < j < |r| ensures r[i].id != r[j].id {
          if j < |kept| {
            assert r[i] == kept[i] && r[j] == kept[j];
          }
        }
      }
    }
  }

  /** The cascade leaves every other conversation's messages as they were,
      order included. */
  lemma {:induction false} CascadeKeepsOthers(ms: seq<StoredMessage>, conversationId: string, other: string)
    requires other != conversationId
    ensures MessagesOf(WithoutConversation(ms, conversationId), other) == MessagesOf(ms, other)
  {
    if ms != [] {
      var init := ms[..|ms| - 1];
      var last := ms[|ms| - 1];
      CascadeKeepsOthers(init, conversationId, other);
      if last.conversationId != conversationId {
        var kept := WithoutConversation(init, conversationId);
        assert (kept + [last])[..|kept + [last]| - 1] == kept;
      }
    }
  }

  /** A conversation without messages loses none to the cascade. */
  lemma {:induction false} CascadeOfAbsentIsIdentity(ms: seq<StoredMessage>, conversationId: string)
    requires forall i :: 0 <= i < |ms| ==> ms[i].conversationId != conversationId
    ensures WithoutConversation(ms, conversationId) == ms
  {
    if ms != [] {
      var init := ms[..|ms| - 1];
      forall i | 0 <= i < |init| ensures init[i].conversationId != conversationId {
        assert init[i] == ms[i];
      }
      CascadeOfAbsentIsIdentity(init, conversationId);
      assert ms == init + [ms[|ms| - 1]];
    }
  }

  /** A conversation none of whose messages are in the table selects nothing. */
  lemma {:induction false} MessagesOfAbsentIsEmpty(ms: seq<StoredMessage>, conversationId: string)
    requires forall i :: 0 <= i < |ms| ==> ms[i].conversationId != conversationId
    ensures MessagesOf(ms, conversationId) == []
  {
    if ms != [] {
      var init := ms[..|ms| - 1];
      assert forall i :: 0 <= i < |init| ==> init[i] == ms[i];
      MessagesOfAbsentIsEmpty(init, conversationId);
    }
  }

  class Store {
    var conversations: map<string, Conversation>
    var messages: seq<StoredMessage>

    /** Primary keys are unique, each conversation is stored under its own id,
        and every message refers to a stored conversation. */
    ghost predicate Valid()
      reads this
    {
      && (forall id :: id in conversations ==> conversations[id].id == id)
      && (forall i :: 0 <= i < |messages| ==> messages[i].conversationId in conversations)
      && UniqueIds(messages)
    }

    /** Two empty tables. */
    constructor ()
      ensures Valid()
      ensures conversations == map[] && messages == []
    {
      conversations := map[];
      messages := [];
    }

    /** Some stored message has that id (the `messages` primary key). */
    predicate HasMessageId(id: string)
      reads this
      ensures !HasMessageId(id) <==> forall m | m in messages :: m.id != id
    {
      exists i :: 0 <= i < |messages| && messages[i].id == id
    }

    /** `createConversation`: insert a row with the given id and timestamp and
        return it; an id already in use is a primary-key violation. */
    method CreateConversation(id: string, title: string, modelName: string, now: nat)
      returns (r: Result<Conversation>)
      requires Valid()
      modifies this
      ensures Valid()
      ensures id in old(conversations) ==> r == Err(PrimaryKeyViolation) && conversations == old(conversations)
      ensures id !in old(conversations) ==>
        && r == Ok(Conversation(id, title, modelName, now))
        && conversations == old(conversations)[id := r.value]
      ensures messages == old(messages)
    {
      if id in conversations {
        return Err(PrimaryKeyViolation);
      }
      conversations := conversations[id := Conversation(id, title, modelName, now)];
      r := Ok(conversations[id]);
    }

    /** `getConversation`: the row with that id, if any. */
    function GetConversation(id: string): (r: Option<Conversation>)
      requires Valid()
      reads this
      ensures r.Some? <==> id in conversations
      ensures r.Some? ==> r.value.id == id && r.value == conversations[id]
    {
      if id in conversations then Some(conversations[id]) else None
    }

    /** `updateConversationTitle`: set the title of that row and return the row
        read back; an unknown id changes nothing and reads back nothing. */
    method UpdateConversationTitle(id: string, title: string) returns (r: Option<Conversation>)
      requires Valid()
      modifies this
      ensures Valid()
      ensures id in old(conversations) ==>
        && r == Some(old(conversations)[id].(title := title))
        && conversations == old(conversations)[id := r.value]
      ensures id !in old(conversations) ==> r == None && conversations == old(conversations)
      ensures messages == old(messages)
    {
      if id in conversations {
        conversations := conversations[id := conversations[id].(title := title)];
      }
      r := GetConversation(id);
    }

    /** `deleteConversation`: remove the row and, by the cascade, all of its
        messages; an unknown id is not an error. */
    method DeleteConversation(id: string)
      requires Valid()
      modifies this
      ensures Valid()
      ensures conversations == old(conversations) - {id}
      ensures messages == WithoutConversation(old(messages), id)
      ensures id !in old(conversations) ==> messages == old(messages)
    {
      CascadeKeepsIdsUnique(messages, id);
      if id !in conversations {
        CascadeOfAbsentIsIdentity(messages, id);
      }
      conversations := conversations - {id};
      messages := WithoutConversation(messages, id);
    }

    /** `addMessage`: append a row; a used id is a primary-key violation, an
        unknown conversation a foreign-key violation, and either stores nothing. */
    method AddMessage(id: string, conversationId: string, role: string, content: string, now: nat)
      returns (r: Result<StoredMessage>)
      requires Valid()
      modifies this
      ensures Valid()
      ensures old(HasMessageId(id)) ==> r == Err(PrimaryKeyViolation)
      ensures !old(HasMessageId(id)) && conversationId !in old(conversations) ==> r == Err(ForeignKeyViolation)
      ensures r.Err? ==> messages == old(messages)
      ensures r.Ok? ==>
        && r.value == StoredMessage(id, conversationId, role, content, now)
        && messages == old(messages) + [r.value]
      ensures r.Ok? <==> !old(HasMessageId(id)) && conversationId in old(conversations)
      ensures conversations == old(conversations)
    {
      if HasMessageId(id) {
        return Err(PrimaryKeyViolation);
      }
      if conversationId !in conversations {
        return Err(ForeignKeyViolation);
      }
      var row := StoredMessage(id, conversationId, role, content, now);
      messages := messages + [row];
      r := Ok(row);
    }

    /** `getMessages`: exactly the messages of that conversation, oldest first. */
    method GetMessages(conversationId: string) returns (r: seq<StoredMessage>)
      ensures SortedBy(r, MessageTime)
      ensures multiset(r) == multiset(MessagesOf(messages, conversationId))
    {
      r := [];
      var i := 0;
      while i < |messages|
        invariant 0 <= i <= |messages|
        invariant SortedBy(r, MessageTime)
        invariant multiset(r) == multiset(MessagesOf(messages[..i], conversationId))
      {
        assert messages[..i + 1] == messages[..i] + [messages[i]];
        assert messages[..i + 1][..i] == messages[..i];
        if messages[i].conversationId == conversationId {
          r := InsertBy(r, messages[i], MessageTime);
        }
        i := i + 1;
      }
      assert messages[..i] == messages;
    }

    /** `listConversations`: every conversation once, newest first. */
    method ListConversations() returns (r: seq<Conversation>)
      requires Valid()
      ensures SortedBy(r, NewestFirst)
      ensures |r| == |conversations|
      ensures forall c :: c in r <==> c in conversations.Values
    {
      r := [];
      var remaining := conversations.Keys;
      while remaining != {}
        invariant remaining <= conversations.Keys
        invariant SortedBy(r, NewestFirst)
        invariant |r| + |remaining| == |conversations|
        invariant forall c :: c in r <==> c in conversations.Values && c.id !in remaining
        decreases remaining
      {
        var id :| id in remaining;
        var row := conversations[id];
        forall c | c in conversations.Values && c.id == id ensures c == row {
          var k :| k in conversations && conversations[k] == c;
        }
        var next := InsertBy(r, row, NewestFirst);
        forall c ensures c in next <==> c in r || c == row {
          assert c in next <==> c in multiset(next);
          assert c in r <==> c in multiset(r);
        }
        r := next;
        remaining := remaining - {id};
      }
    }
  }

  /** Deleting a conversation leaves `getMessages` of it empty, and deleting
      it a second time changes nothing. */
  lemma {:induction false} DeleteIsComplete(ms: seq<StoredMessage>, conversationId: string)
    ensures MessagesOf(WithoutConversation(ms, conversationId), conversationId) == []
    ensures WithoutConversation(WithoutConversation(ms, conversationId), conversationId)
      == WithoutConversation(ms, conversationId)
  {
    var kept := WithoutConversation(ms, conversationId);
    assert forall i :: 0 <= i < |kept| ==> kept[i].conversationId != conversationId by {
      forall i | 0 <= i < |kept| ensures kept[i].conversationId != conversationId {
        assert kept[i] in kept;
      }
    }
    CascadeOfAbsentIsIdentity(kept, conversationId);
    MessagesOfAbsentIsEmpty(kept, conversationId);
  }
}

/**
 * The conversation sidebar of the renderer: the list it shows, the title
 * editor, and the delete and rename round trips to the store. The selected
 * conversation belongs to the enclosing application component; it is a field
 * here because deleting the selected conversation clears it.
 *
 * The store's replies are inputs: `None` stands for a rejected call.
 */
module ConversationSidebar {
  import opened Common
  import opened ConversationStore

  /** The ids of a list of conversations, in list order. */
  function Ids(cs: seq<Conversation>): (r: seq<string>)
    ensures |r| == |cs|
    ensures forall i :: 0 <= i < |cs| ==> r[i] == cs[i].id
  {
    if cs == [] then [] else Ids(cs[..|cs| - 1]) + [cs[|cs| - 1].id]
  }

  /** `prev.filter(c => c.id !== id)` */
  function RemoveById(cs: seq<Conversation>, id: string): (r: seq<Conversation>)
    ensures |r| <= |cs|
    ensures forall c :: c in r <==> c in cs && c.id != id
  {
    if cs == [] then []
    else
      var init := RemoveById(cs[..|cs| - 1], id);
      var last := cs[|cs| - 1];
      assert cs == cs[..|cs| - 1] + [last];
      if last.id != id then init + [last] else init
  }

  /** `prev.map(c => c.id === id ? row : c)` */
  function ReplaceById(cs: seq<Conversation>, id: string, row: Conversation): (r: seq<Conversation>)
    ensures |r| == |cs|
    ensures forall i :: 0 <= i < |cs| ==> r[i] == if cs[i].id == id then row else cs[i]
  {
    if cs == [] then []
    else ReplaceById(cs[..|cs| - 1], id, row) + [if cs[|cs| - 1].id == id then row else cs[|cs| - 1]]
  }

  /** Filtering keeps the survivors in their order: it distributes over
      concatenation. */
  lemma {:induction false} RemoveByIdAppend(a: seq<Conversation>, b: seq<Conversation>, id: string)
    ensures RemoveById(a + b, id) == RemoveById(a, id) + RemoveById(b, id)
  {
    if b == [] {
      assert a + b == a;
      AppendEmpty(RemoveById(a, id));
    } else {
      var init := b[..|b| - 1];
      var last := b[|b| - 1];
      assert (a + b)[..|a + b| - 1] == a + init;
      assert (a + b)[|a + b| - 1] == last;
      RemoveByIdAppend(a, init, id);
      if last.id != id {
        AppendAssoc(RemoveById(a, id), RemoveById(init, id), [last]);
      }
    }
  }

  /** Deleting an id the list does not hold leaves the list as it was. */
  lemma {:induction false} RemoveAbsentIsIdentity(cs: seq<Conversation>, id: string)
    requires id !in Ids(cs)
    ensures RemoveById(cs, id) == cs
  {
    if cs != [] {
      var init := cs[..|cs| - 1];
      assert Ids(cs) == Ids(init) + [cs[|cs| - 1].id];
      RemoveAbsentIsIdentity(init, id);
      assert cs == init + [cs[|cs| - 1]];
    }
  }

  /** Deleting twice is deleting once. */
  lemma RemoveIsIdempotent(cs: seq<Conversation>, id: string)
    ensures RemoveById(RemoveById(cs, id), id) == RemoveById(cs, id)
  {
    RemoveAbsentIsIdentity(RemoveById(cs, id), id);
  }

  /** No two entries share an id. */
  predicate DistinctIds(cs: seq<Conversation>)
  {
    forall i, j :: 0 <= i < j < |cs| ==> cs[i].id != cs[j].id
  }

  /** A rename that reads back the row under its own id keeps the ids of the
      list, in order, and so keeps them distinct. */
  lemma RenameKeepsIds(cs: seq<Conversation>, id: string, row: Conversation)
    requires row.id == id
    ensures Ids(ReplaceById(cs, id, row)) == Ids(cs)
    ensures DistinctIds(cs) ==> DistinctIds(ReplaceById(cs, id, row))
  {
    var r := ReplaceById(cs, id, row);
    assert forall i :: 0 <= i < |cs| ==> Ids(r)[i] == Ids(cs)[i];
  }

  /** With distinct ids, a rename changes exactly one entry when the id is
      listed and none otherwise. */
  lemma RenameChangesOneEntry(cs: seq<Conversation>, id: string, row: Conversation, k: int)
    requires DistinctIds(cs) && 0 <= k < |cs| && cs[k].id == id
    ensures ReplaceById(cs, id, row) == cs[k := row]
  {
    var r := ReplaceById(cs, id, row);
    forall i | 0 <= i < |cs| ensures r[i] == cs[k := row][i] {
      if i != k {
        assert cs[i].id != id;
      }
    }
  }

  /** A delete of a list with distinct ids removes exactly the one entry. */
  lemma DeleteRemovesOneEntry(cs: seq<Conversation>, k: int)
    requires DistinctIds(cs) && 0 <= k < |cs|
    ensures RemoveById(cs, cs[k].id) == cs[..k] + cs[k + 1..]
  {
    IdAbsentAround(cs, k);
    SplitAround(cs, k);
    RemoveOnlyEntry(cs[..k], cs[k], cs[k + 1..]);
  }

  /** Deleting the id of an entry that no other entry has removes just it. */
  lemma RemoveOnlyEntry(front: seq<Conversation>, x: Conversation, tail: seq<Conversation>)
    requires x.id !in Ids(front) && x.id !in Ids(tail)
    ensures RemoveById(front + [x] + tail, x.id) == front + tail
  {
    RemoveByIdAppend(front + [x], tail, x.id);
    RemoveByIdAppend(front, [x], x.id);
    assert [x][..0] == [];
    assert RemoveById([x], x.id) == [];
    RemoveAbsentIsIdentity(front, x.id);
    RemoveAbsentIsIdentity(tail, x.id);
    AppendEmpty(front);
  }

  /** With distinct ids, the entries before and after entry `k` do not hold
      its id. */
  lemma IdAbsentAround(cs: seq<Conversation>, k: int)
    requires DistinctIds(cs) && 0 <= k < |cs|
    ensures cs[k].id !in Ids(cs[..k]) && cs[k].id !in Ids(cs[k + 1..])
  {
    var front := cs[..k];
    forall i | 0 <= i < |front| ensures Ids(front)[i] != cs[k].id {
      assert front[i] == cs[i];
    }
    var tail := cs[k + 1..];
    forall i | 0 <= i < |tail| ensures Ids(tail)[i] != cs[k].id {
      assert tail[i] == cs[k + 1 + i];
    }
  }

  class Sidebar {
    var conversations: seq<Conversation>
    var loading: bool
    var editingId: Option<string>
    var editTitle: string
    /** The application's `currentConversation`. */
    var current: Option<Conversation>
    /** The application's `selectedModel`. */
    var selectedModel: string

    /** A freshly mounted sidebar, before the list has arrived. */
    constructor (model: string)
      ensures conversations == [] && loading && editingId == None && editTitle == []
      ensures current == None && selectedModel == model
    {
      conversations := [];
      loading := true;
      editingId := None;
      editTitle := [];
      current := None;
      selectedModel := model;
    }

    /** `loadConversations`: show the list the store returned; on a rejected
        call keep the old one. Loading ends either way. */
    method Load(reply: Option<seq<Conversation>>)
      modifies this`conversations, this`loading
      ensures conversations == if reply.Some? then reply.value else old(conversations)
      ensures !loading
    {
      if reply.Some? {
        conversations := reply.value;
      }
      loading := false;
    }

    /** `handleDelete`: once the store has deleted the conversation, drop it
        from the list and, if it was the open one, start a new chat. A rejected
        call changes nothing. */
    method HandleDelete(conversation: Conversation, deleted: bool)
      modifies this`conversations, this`current
      ensures deleted ==> conversations == RemoveById(old(conversations), conversation.id)
      ensures deleted && old(current).Some? && old(current).value.id == conversation.id ==> current == None
      ensures !(deleted && old(current).Some? && old(current).value.id == conversation.id) ==> current == old(current)
      ensures !deleted ==> conversations == old(conversations)
      ensures deleted ==> conversation.id !in Ids(conversations)
    {
      if deleted {
        conversations := RemoveById(conversations, conversation.id);
        if current.Some? && current.value.id == conversation.id {
          current := None;
        }
      }
    }

    /** `handleUpdateTitle`: send the edited title; when the store answers
        with the row read back, put it in place of the entry with that id and
        close the editor. A rejected call leaves the list and the editor open. */
    method HandleUpdateTitle(conversation: Conversation, reply: Option<Conversation>)
      returns (request: (string, string))
      modifies this`conversations, this`editingId
      ensures request == (conversation.id, old(editTitle))
      ensures reply.Some? ==>
        conversations == ReplaceById(old(conversations), conversation.id, reply.value) && editingId == None
      ensures reply.None? ==> conversations == old(conversations) && editingId == old(editingId)
    {
      request := (conversation.id, editTitle);
      if reply.Some? {
        conversations := ReplaceById(conversations, conversation.id, reply.value);
        editingId := None;
      }
    }

    /** The edit button: open the editor on this entry, filled with its title. */
    method StartEdit(conversation: Conversation)
      modifies this`editingId, this`editTitle
      ensures editingId == Some(conversation.id) && editTitle == conversation.title
    {
      editingId := Some(conversation.id);
      editTitle := conversation.title;
    }

    /** The title field's `onChange`. */
    method SetEditTitle(text: string)
      modifies this`editTitle
      ensures editTitle == text
    {
      editTitle := text;
    }

    /** The cancel button: close the editor, keeping the typed text. */
    method CancelEdit()
      modifies this`editingId
      ensures editingId == None
    {
      editingId := None;
    }

    /** `handleSelectConversation`: open the conversation and switch to the
        model it was held with. */
    method Select(conversation: Conversation)
      modifies this`current, this`selectedModel
      ensures current == Some(conversation) && selectedModel == conversation.modelName
    {
      current := Some(conversation);
      selectedModel := conversation.modelName;
    }

    /** `handleNewChat`: no conversation is open. */
    method NewChat()
      modifies this`current
      ensures current == None
    {
      current := None;
    }
  }
}

/**
 * The chat panel of the renderer: a submit handler that appends the user's
 * message and starts a streaming request, a chunk callback that accumulates
 * the assistant's reply and publishes the text so far, and the error path
 * that replaces the turn's reply with a fixed apology.
 *
 * Each React handler is one atomic step. The preload script's listener
 * registry for the chunk channel is the set `listeners`; `cleanup` is the
 * component's `cleanupRef`, naming the listener its cleanup function removes.
 */
module ChatInterface {
  import opened Common
  import opened StreamFramer

  datatype Role = User | Assistant

  /** A transcript entry as the component builds it (role and content only). */
  datatype Message = Message(role: Role, content: string)

  const ErrorReply := "Sorry, I encountered an error. Please try again."

  /** `data.message?.content` is truthy. */
  predicate HasContent(c: ChatChunk)
    ensures HasContent(c) <==> ContentOf(c) != []
  {
    c.message.Some? && c.message.value.content != []
  }

  /** The text a chunk adds to the reply (none when it carries no content). */
  function ContentOf(c: ChatChunk): string
  {
    if c.message.Some? then c.message.value.content else []
  }

  /** All the text a run of chunks adds, in order. */
  function Contents(cs: seq<ChatChunk>): string
  {
    if cs == [] then [] else Contents(cs[..|cs| - 1]) + ContentOf(cs[|cs| - 1])
  }

  /** The part of the component's state a chunk can change. */
  datatype Turn = Turn(messages: seq<Message>, loading: bool, streamingContent: string, accumulated: string)

  /** What the `onChatChunk` callback does to that state. */
  function OnChunkSpec(t: Turn, c: ChatChunk): (r: Turn)
    ensures r.accumulated == t.accumulated + ContentOf(c)
    ensures r.messages == t.messages + (if c.done then [Message(Assistant, r.accumulated)] else [])
    ensures r.loading == (t.loading && !c.done)
    ensures c.done ==> r.streamingContent == []
    ensures !c.done && HasContent(c) ==> r.streamingContent == r.accumulated
    ensures !c.done && !HasContent(c) ==> r.streamingContent == t.streamingContent
  {
    var accumulated := if HasContent(c) then t.accumulated + c.message.value.content else t.accumulated;
    var streaming := if HasContent(c) then accumulated else t.streamingContent;
    if c.done then Turn(t.messages + [Message(Assistant, accumulated)], false, [], accumulated)
    else Turn(t.messages, t.loading, streaming, accumulated)
  }

  /** The state after the callback has seen `cs`, one chunk after the other. */
  function Replay(t: Turn, cs: seq<ChatChunk>): Turn
  {
    if cs == [] then t else OnChunkSpec(Replay(t, cs[..|cs| - 1]), cs[|cs| - 1])
  }

  predicate NoneDone(cs: seq<ChatChunk>)
  {
    forall i :: 0 <= i < |cs| ==> !cs[i].done
  }

  /** While no chunk is final, the published text is always the whole reply so
      far (never a difference), and the transcript and loading flag stay put. */
  lemma {:induction false} PublishedTextIsCumulative(t: Turn, cs: seq<ChatChunk>)
    requires t.streamingContent == t.accumulated
    requires NoneDone(cs)
    ensures Replay(t, cs).accumulated == t.accumulated + Contents(cs)
    ensures Replay(t, cs).streamingContent == Replay(t, cs).accumulated
    ensures Replay(t, cs).messages == t.messages
    ensures Replay(t, cs).loading == t.loading
  {
    if cs == [] {
      AppendEmpty(t.accumulated);
    } else {
      var init := cs[..|cs| - 1];
      assert NoneDone(init) by {
        forall i | 0 <= i < |init| ensures !init[i].done { assert init[i] == cs[i]; }
      }
      PublishedTextIsCumulative(t, init);
      AppendAssoc(t.accumulated, Contents(init), ContentOf(cs[|cs| - 1]));
      AppendEmpty(t.messages);
    }
  }

  /** A turn that ends with its final chunk appends exactly one assistant
      message, holding the text of every chunk including the final one, and
      clears the published text and the loading flag. */
  lemma TurnCompletes(t: Turn, cs: seq<ChatChunk>, last: ChatChunk)
    requires t.streamingContent == t.accumulated
    requires NoneDone(cs) && last.done
    ensures Replay(t, cs + [last]).messages
      == t.messages + [Message(Assistant, t.accumulated + Contents(cs + [last]))]
    ensures !Replay(t, cs + [last]).loading
    ensures Replay(t, cs + [last]).streamingContent == []
  {
    var all := cs + [last];
    assert all[..|all| - 1] == cs && all[|all| - 1] == last;
    PublishedTextIsCumulative(t, cs);
    AppendAssoc(t.accumulated, Contents(cs), ContentOf(last));
  }

  class Chat {
    var messages: seq<Message>
    var input: string
    var loading: bool
    var streamingContent: string
    /** `accumulatedContentRef.current` */
    var accumulated: string
    /** `cleanupRef.current`: the listener its cleanup function removes. */
    var cleanup: Option<nat>
    /** The listeners registered on the chunk channel. */
    var listeners: set<nat>
    var nextListener: nat

    /** At most one chunk listener exists, and it is the one `cleanupRef`
        would remove. */
    ghost predicate Valid()
      reads this`listeners, this`cleanup, this`nextListener
    {
      && listeners == (if cleanup.Some? then {cleanup.value} else {})
      && (cleanup.Some? ==> cleanup.value < nextListener)
    }

    function State(): Turn
      reads this
    {
      Turn(messages, loading, streamingContent, accumulated)
    }

    /** The state of a freshly mounted component. */
    constructor ()
      ensures Valid()
      ensures messages == [] && input == [] && !loading && streamingContent == [] && accumulated == []
      ensures cleanup == None && listeners == {}
    {
      messages := [];
      input := [];
      loading := false;
      streamingContent := [];
      accumulated := [];
      cleanup := None;
      listeners := {};
      nextListener := 0;
    }

    /** The text area's `onChange`. */
    method SetInput(text: string)
      modifies this`input
      ensures input == text
    {
      input := text;
    }

    /** The send button is enabled exactly when a submit would start a turn. */
    predicate CanSubmit()
      reads this
      ensures CanSubmit() <==> !loading && !IsBlank(input)
    {
      TrimEmptyIffBlank(input);
      !loading && Trim(input) != []
    }

    /** `handleSubmit` up to the `await`: returns the message list handed to
        `window.api.chat`, or `None` when the guard returns early. */
    method Submit() returns (request: Option<seq<Message>>)
      requires Valid()
      modifies this
      ensures Valid()
      ensures request.Some? <==> old(CanSubmit())
      ensures request.None? ==> State() == old(State()) && input == old(input)
      ensures request.None? ==> cleanup == old(cleanup) && listeners == old(listeners)
      ensures request.Some? ==>
        && messages == old(messages) + [Message(User, Trim(old(input)))]
        && request.value == messages
        && input == [] && loading && streamingContent == [] && accumulated == []
        && cleanup == Some(old(nextListener)) && listeners == {old(nextListener)}
      ensures |listeners| <= 1
    {
      var userMessage := Trim(input);
      if userMessage == [] || loading {
        return None;
      }
      input := [];
      loading := true;
      streamingContent := [];
      accumulated := [];
      var newMessages := messages + [Message(User, userMessage)];
      messages := newMessages;
      ReplaceListener();
      request := Some(newMessages);
    }

    /** Release the previous subscription, if any, then register the new
        chunk callback and remember its cleanup. */
    method ReplaceListener()
      requires Valid()
      modifies this`listeners, this`cleanup, this`nextListener
      ensures Valid()
      ensures cleanup == Some(old(nextListener)) && listeners == {old(nextListener)}
    {
      if cleanup.Some? {
        listeners := listeners - {cleanup.value};
        cleanup := None;
      }
      assert listeners == {};
      listeners := listeners + {nextListener};
      cleanup := Some(nextListener);
      nextListener := nextListener + 1;
    }

    /** A chunk arrives on the channel; the registered listener, if any, runs
        the `onChatChunk` callback. */
    method OnChunk(data: ChatChunk)
      requires Valid()
      modifies this
      ensures Valid()
      ensures old(cleanup).Some? ==> State() == OnChunkSpec(old(State()), data)
      ensures old(cleanup).None? ==> State() == old(State())
      ensures input == old(input)
      ensures cleanup == old(cleanup) && listeners == old(listeners) && nextListener == old(nextListener)
    {
      if listeners != {} {
        if data.message.Some? && data.message.value.content != [] {
          accumulated := accumulated + data.message.value.content;
          streamingContent := accumulated;
        }
        if data.done {
          messages := messages + [Message(Assistant, accumulated)];
          streamingContent := [];
          loading := false;
        }
      }
    }

    /** The awaited chat request rejected: the catch block of the submit that
        sent `submitted` (its `newMessages`) rebuilds the transcript from that
        list plus the apology, and clears the loading flag. The published
        text, the accumulator and the listener are left as they were. */
    method OnError(submitted: seq<Message>)
      requires Valid()
      modifies this`messages, this`loading
      ensures Valid()
      ensures messages == submitted + [Message(Assistant, ErrorReply)]
      ensures !loading
    {
      var errorMessage := Message(Assistant, ErrorReply);
      messages := submitted + [errorMessage];
      loading := false;
    }

    /** The unmount effect: remove the listener, if any. */
    method Unmount()
      requires Valid()
      modifies this`cleanup, this`listeners
      ensures Valid()
      ensures cleanup == None && listeners == {}
    {
      if cleanup.Some? {
        listeners := listeners - {cleanup.value};
        cleanup := None;
      }
    }
  }
}

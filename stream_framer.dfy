/**
 * The `ollama:chat` streaming handler of the main process: the response body
 * arrives as text fragments, a string buffer collects them, every complete
 * `\n`-terminated line is cut off the front of the buffer, blank lines are
 * dropped, the others are handed to `JSON.parse`, and every record that parses
 * is sent to the renderer on the `ollama:chat:chunk` channel.
 *
 * `JSON.parse` is outside the model: a `ChatStream` is built with a partial
 * function `parse` that stands for it (`None` where it would throw).
 */
module StreamFramer {
  import opened Common
  import IpcErrors

  /** The `message` member of a streamed record. */
  datatype ChunkMessage = ChunkMessage(role: string, content: string)

  /** One streamed record of the chat endpoint; the optional members are the
      usage counters and durations present only on the final record. */
  datatype ChatChunk = ChatChunk(
    model: string,
    createdAt: string,
    message: Option<ChunkMessage>,
    done: bool,
    totalDuration: Option<int>,
    loadDuration: Option<int>,
    promptEvalCount: Option<int>,
    promptEvalDuration: Option<int>,
    evalCount: Option<int>,
    evalDuration: Option<int>)

  /** Stands for `JSON.parse` followed by reading the object as a chunk. */
  type Parser = string -> Option<ChatChunk>

  /** The complete lines of a text and the unterminated text after the last `\n`. */
  datatype Framed = Framed(lines: seq<string>, rest: string)

  /** Each line followed by its `\n`, all concatenated: the text the lines came from. */
  function Terminated(lines: seq<string>): string
  {
    if lines == [] then [] else lines[0] + "\n" + Terminated(lines[1..])
  }

  predicate NoNewline(s: string)
  {
    '\n' !in s
  }

  /** Cuts `s` at every `\n`, front to back, as the data handler's loop does. */
  function SplitLines(s: string): (r: Framed)
    ensures |r.lines| <= |s|
    decreases |s|
  {
    var i := IndexOf(s, '\n');
    if i == -1 then Framed([], s)
    else
      var tail := SplitLines(s[i + 1..]);
      Framed([s[..i]] + tail.lines, tail.rest)
  }

  /** Nothing is lost or duplicated: the lines, each with its `\n` put back,
      followed by the rest, are the text again; no line and not the rest holds
      a `\n`. */
  lemma {:induction false} SplitLinesSpec(s: string)
    ensures Terminated(SplitLines(s).lines) + SplitLines(s).rest == s
    ensures NoNewline(SplitLines(s).rest)
    ensures forall k :: 0 <= k < |SplitLines(s).lines| ==> NoNewline(SplitLines(s).lines[k])
    decreases |s|
  {
    var i := IndexOf(s, '\n');
    if i != -1 {
      var tail := SplitLines(s[i + 1..]);
      SplitLinesSpec(s[i + 1..]);
      CutAt(s, i, tail.lines, tail.rest);
      var lines := [s[..i]] + tail.lines;
      assert SplitLines(s).lines == lines;
      forall k | 0 <= k < |lines| ensures NoNewline(lines[k]) {
        if k > 0 { assert lines[k] == tail.lines[k - 1]; }
      }
    }
  }

  /** One step of the cut: a line up to the `\n` at `i`, then the lines of
      what follows. */
  lemma CutAt(s: string, i: nat, lines: seq<string>, rest: string)
    requires i < |s| && s[i] == '\n'
    requires Terminated(lines) + rest == s[i + 1..]
    ensures Terminated([s[..i]] + lines) + rest == s
  {
    var all := [s[..i]] + lines;
    assert all[0] == s[..i] && all[1..] == lines;
    assert s == s[..i] + "\n" + s[i + 1..];
    calc {
      Terminated(all) + rest;
      (s[..i] + "\n" + Terminated(lines)) + rest;
      s[..i] + "\n" + (Terminated(lines) + rest);
    }
  }

  /** The chunks sent for a run of complete lines: blank lines are skipped,
      lines that do not parse are dropped, the rest are sent in order. */
  function Decode(lines: seq<string>, parse: Parser): (r: seq<ChatChunk>)
    ensures |r| <= |lines|
  {
    if lines == [] then []
    else DecodeLine(lines[0], parse) + Decode(lines[1..], parse)
  }

  /** What one complete line contributes: nothing when it is blank after
      `trim()` or when parsing fails, otherwise the parsed chunk. */
  function DecodeLine(line: string, parse: Parser): (r: seq<ChatChunk>)
    ensures |r| <= 1
    ensures IsBlank(line) ==> r == []
    ensures !IsBlank(line) ==> r == match parse(line) case Some(c) => [c] case None => []
  {
    TrimEmptyIffBlank(line);
    if Trim(line) == [] then []
    else match parse(line)
      case Some(c) => [c]
      case None => []
  }

  /** The buffer and the chunks sent by one data event that appends `fragment`
      to `buffer`. */
  ghost function Feed(buffer: string, fragment: string, parse: Parser): (r: (string, seq<ChatChunk>))
    ensures NoNewline(r.0)
  {
    SplitLinesSpec(buffer + fragment);
    var f := SplitLines(buffer + fragment);
    (f.rest, Decode(f.lines, parse))
  }

  /** One data event loses and duplicates nothing: the lines it cut, each
      with its `\n` put back, followed by the new buffer, are the old buffer
      followed by the fragment; the new buffer holds no `\n`. */
  lemma FeedConserves(buffer: string, fragment: string, parse: Parser)
    ensures var lines := SplitLines(buffer + fragment).lines;
      var after := Feed(buffer, fragment, parse).0;
      && Terminated(lines) + after == buffer + fragment
      && NoNewline(after)
      && (forall k :: 0 <= k < |lines| ==> NoNewline(lines[k]))
  {
    SplitLinesSpec(buffer + fragment);
  }

  /** The buffer and all chunks sent after the data events `fragments`, one
      after the other, starting from `buffer`. */
  ghost function FeedAll(buffer: string, fragments: seq<string>, parse: Parser): (r: (string, seq<ChatChunk>))
    ensures fragments != [] || NoNewline(buffer) ==> NoNewline(r.0)
    decreases |fragments|
  {
    if fragments == [] then (buffer, [])
    else
      var (b1, out1) := Feed(buffer, fragments[0], parse);
      var (b2, out2) := FeedAll(b1, fragments[1..], parse);
      (b2, out1 + out2)
  }

  function Concat(fragments: seq<string>): string
  {
    if fragments == [] then [] else fragments[0] + Concat(fragments[1..])
  }

  /** Lines are decoded one by one, independently of their neighbours. */
  lemma {:induction false} DecodeAppend(a: seq<string>, b: seq<string>, parse: Parser)
    ensures Decode(a + b, parse) == Decode(a, parse) + Decode(b, parse)
    decreases |a|
  {
    if a != [] {
      assert (a + b)[0] == a[0] && (a + b)[1..] == a[1..] + b;
      DecodeAppend(a[1..], b, parse);
      calc {
        Decode(a + b, parse);
        DecodeLine(a[0], parse) + Decode(a[1..] + b, parse);
        DecodeLine(a[0], parse) + (Decode(a[1..], parse) + Decode(b, parse));
        (DecodeLine(a[0], parse) + Decode(a[1..], parse)) + Decode(b, parse);
      }
    } else {
      assert a + b == b;
    }
  }

  /** One more line at the end contributes what it contributes alone. */
  lemma DecodeSnoc(lines: seq<string>, line: string, parse: Parser)
    ensures Decode(lines + [line], parse) == Decode(lines, parse) + DecodeLine(line, parse)
  {
    DecodeAppend(lines, [line], parse);
    assert [line][1..] == [];
    assert Decode([line], parse) == DecodeLine(line, parse) + [];
  }

  /** What one turn of the data handler's loop does to the lines taken so far. */
  lemma {:induction false} CutStep(whole: Framed, lines: seq<string>, buffer: string, i: int)
    requires i == IndexOf(buffer, '\n') && i != -1
    requires whole == Framed(lines + SplitLines(buffer).lines, SplitLines(buffer).rest)
    ensures var after := SplitLines(buffer[i + 1..]);
      whole == Framed((lines + [buffer[..i]]) + after.lines, after.rest)
  {
    var line := buffer[..i];
    var after := SplitLines(buffer[i + 1..]);
    assert SplitLines(buffer) == Framed([line] + after.lines, after.rest);
    AppendAssoc(lines, [line], after.lines);
  }

  /** Cutting lines off `s + t` is cutting them off `s` and then off what is
      left of `s` followed by `t`. */
  lemma {:induction false} SplitLinesAppend(s: string, t: string)
    ensures var first := SplitLines(s);
      var second := SplitLines(first.rest + t);
      SplitLines(s + t) == Framed(first.lines + second.lines, second.rest)
    decreases |s|
  {
    var i := IndexOf(s, '\n');
    if i == -1 {
      assert SplitLines(s) == Framed([], s);
      assert [] + SplitLines(s + t).lines == SplitLines(s + t).lines;
    } else {
      var rest := SplitLines(s[i + 1..]);
      var second := SplitLines(rest.rest + t);
      var line := s[..i];
      assert SplitLines(s) == Framed([line] + rest.lines, rest.rest);
      SplitLinesAppend(s[i + 1..], t);
      var whole := SplitLines(s[i + 1..] + t);
      assert whole == Framed(rest.lines + second.lines, second.rest);
      CutAppend(s, t, i);
      assert SplitLines(s + t) == Framed([line] + whole.lines, whole.rest);
      AppendAssoc([line], rest.lines, second.lines);
    }
  }

  /** Text appended after the first `\n` does not change the first line. */
  lemma CutAppend(s: string, t: string, i: nat)
    requires i < |s| && IndexOf(s, '\n') == i
    ensures SplitLines(s + t) == Framed([s[..i]] + SplitLines(s[i + 1..] + t).lines, SplitLines(s[i + 1..] + t).rest)
  {
    assert (s + t)[..i] == s[..i];
    IndexOfUnique(s + t, '\n', i);
    assert (s + t)[i + 1..] == s[i + 1..] + t;
  }

  /** Fragmentation independence: two data events send what one data event
      with the joined text would send, and leave the same buffer. */
  lemma {:induction false} FeedTwice(buffer: string, a: string, b: string, parse: Parser)
    ensures var (b1, out1) := Feed(buffer, a, parse);
      var (b2, out2) := Feed(b1, b, parse);
      Feed(buffer, a + b, parse) == (b2, out1 + out2)
  {
    var first := SplitLines(buffer + a);
    var second := SplitLines(first.rest + b);
    assert buffer + (a + b) == (buffer + a) + b;
    SplitLinesAppend(buffer + a, b);
    DecodeAppend(first.lines, second.lines, parse);
  }

  /** However the stream is cut into fragments, the chunks sent and the final
      buffer are those of the whole text delivered at once. */
  lemma {:induction false} FeedAllIsFeedConcat(buffer: string, fragments: seq<string>, parse: Parser)
    requires NoNewline(buffer)
    ensures FeedAll(buffer, fragments, parse) == Feed(buffer, Concat(fragments), parse)
    decreases |fragments|
  {
    if fragments == [] {
      assert buffer + [] == buffer;
      NoCompleteLine(buffer);
    } else {
      var b1 := Feed(buffer, fragments[0], parse).0;
      SplitLinesSpec(buffer + fragments[0]);
      FeedAllIsFeedConcat(b1, fragments[1..], parse);
      FeedTwice(buffer, fragments[0], Concat(fragments[1..]), parse);
    }
  }

  /** A buffer without `\n` holds no complete line, so it yields nothing. */
  lemma NoCompleteLine(buffer: string)
    requires NoNewline(buffer)
    ensures SplitLines(buffer) == Framed([], buffer)
  {
    assert IndexOf(buffer, '\n') == -1;
  }

  /** When the data handler's loop stops, the lines it took are all the
      lines of the text and what is left is the rest. */
  lemma {:induction false} LoopExit(text: string, lines: seq<string>, pending: string)
    requires IndexOf(pending, '\n') == -1
    requires SplitLines(text) == Framed(lines + SplitLines(pending).lines, SplitLines(pending).rest)
    ensures SplitLines(text) == Framed(lines, pending)
  {
    NoCompleteLine(pending);
    AppendEmpty(lines);
  }

  /** The loop of the data handler: while the text holds a `\n`, cut off the
      line before it and send it if it is not blank and parses. The chunks
      are those of the cut lines, in order, and the text left over is the
      rest of the cut. */
  method CutLines(text: string, parse: Parser) returns (rest: string, chunks: seq<ChatChunk>)
    ensures rest == SplitLines(text).rest && NoNewline(rest)
    ensures chunks == Decode(SplitLines(text).lines, parse)
  {
    rest := text;
    chunks := [];
    ghost var lines: seq<string> := [];
    AppendEmpty(SplitLines(text).lines);
    var newlineIndex := IndexOf(rest, '\n');
    while newlineIndex != -1
      invariant newlineIndex == IndexOf(rest, '\n')
      invariant SplitLines(text) == Framed(lines + SplitLines(rest).lines, SplitLines(rest).rest)
      invariant chunks == Decode(lines, parse)
      decreases |rest|
    {
      var line := rest[..newlineIndex];
      CutStep(SplitLines(text), lines, rest, newlineIndex);
      DecodeSnoc(lines, line, parse);
      rest := rest[newlineIndex + 1..];
      lines := lines + [line];
      ghost var prev := chunks;
      if Trim(line) != [] {
        match parse(line) {
          case Some(data) => chunks := chunks + [data];
          case None =>
        }
      }
      assert chunks == prev + DecodeLine(line, parse);
      newlineIndex := IndexOf(rest, '\n');
    }
    LoopExit(text, lines, rest);
  }

  /** How the promise returned by the handler settles. */
  datatype Settlement =
    | Resolved(done: bool)                     // `{done: true}` on the stream's `end`
    | RejectedWith(info: IpcErrors.ErrorInfo)  // thrown from the handler's catch block
    | RejectedRaw(error: IpcErrors.Failure)    // the stream's `error`, passed on unchanged

  datatype Phase = Requesting | Streaming | Settled

  /** One invocation of the `ollama:chat` handler with `stream = true`. */
  class ChatStream {
    const parse: Parser
    var phase: Phase
    var buffer: string
    /** Every chunk sent to the renderer on `ollama:chat:chunk`, in order. */
    var sent: seq<ChatChunk>
    /** Every object sent to the renderer on the `error` channel. */
    var notices: seq<IpcErrors.ErrorInfo>
    var outcome: Option<Settlement>

    ghost predicate Valid()
      reads this
    {
      && NoNewline(buffer)
      && (phase == Settled <==> outcome.Some?)
      && (phase == Requesting ==> buffer == [] && sent == [])
    }

    constructor (parse: Parser)
      ensures Valid()
      ensures this.parse == parse
      ensures phase == Requesting && buffer == [] && sent == [] && notices == [] && outcome == None
    {
      this.parse := parse;
      phase := Requesting;
      buffer := [];
      sent := [];
      notices := [];
      outcome := None;
    }

    /** The streaming request was answered: the data handler starts with an
        empty buffer. */
    method OnResponse()
      requires Valid() && phase == Requesting
      modifies this
      ensures Valid()
      ensures phase == Streaming && buffer == []
      ensures sent == old(sent) && notices == old(notices) && outcome == old(outcome)
    {
      phase := Streaming;
      buffer := [];
    }

    /** The request itself failed (before any stream existed): the catch block
        classifies the failure, sends it on `error` and rethrows it. */
    method OnRequestFailed(failure: IpcErrors.Failure)
      requires Valid() && phase == Requesting
      modifies this
      ensures Valid()
      ensures phase == Settled
      ensures notices == old(notices) + [IpcErrors.ChatError(failure)]
      ensures outcome == Some(RejectedWith(IpcErrors.ChatError(failure)))
      ensures buffer == old(buffer) && sent == old(sent)
    {
      var info := IpcErrors.ChatError(failure);
      notices := notices + [info];
      phase := Settled;
      outcome := Some(RejectedWith(info));
    }

    /** A `data` event: append the fragment and cut off every complete line. */
    method OnData(fragment: string)
      requires Valid() && phase == Streaming
      modifies this`buffer, this`sent
      ensures Valid()
      ensures |old(sent)| <= |sent| && sent[..|old(sent)|] == old(sent)
      ensures (buffer, sent[|old(sent)|..]) == Feed(old(buffer), fragment, parse)
      ensures NoNewline(buffer)
    {
      var rest, chunks := CutLines(buffer + fragment, parse);
      assert (sent + chunks)[|sent|..] == chunks;
      buffer := rest;
      sent := sent + chunks;
    }

    /** The stream's `end` event: the promise resolves `{done: true}`; whatever
        is left in the buffer is neither parsed nor sent. */
    method OnEnd()
      requires Valid() && phase == Streaming
      modifies this
      ensures Valid()
      ensures phase == Settled && outcome == Some(Resolved(true))
      ensures buffer == old(buffer) && sent == old(sent) && notices == old(notices)
    {
      phase := Settled;
      outcome := Some(Resolved(true));
    }

    /** The stream's `error` event: the promise rejects with the raw failure.
        The promise is returned from the `try` block without being awaited,
        so the handler's catch block never sees this failure and nothing is
        sent on `error`. */
    method OnStreamError(failure: IpcErrors.Failure)
      requires Valid() && phase == Streaming
      modifies this
      ensures Valid()
      ensures phase == Settled && outcome == Some(RejectedRaw(failure))
      ensures buffer == old(buffer) && sent == old(sent) && notices == old(notices)
    {
      phase := Settled;
      outcome := Some(RejectedRaw(failure));
    }
  }
}

/**
 * The chat endpoints' handling of model output: flattening a message's
 * content (a string, a list of content blocks, or a dictionary) to text,
 * the non-streaming answer collection, and the streaming bookkeeping that
 * emits each new character of the answer and each tool once.
 *
 * Python's str() of a value that is neither text nor a list is a parameter
 * (`render`), since its exact spelling is not part of this model.
 */
module ChatContent {
  import opened Wrappers
  import opened Json
  import opened Events
  import Text
  import DynamicAgent

  // ---------------------------------------------------------------------
  // Content flattening

  /**
   * What one item of a list-valued content adds to the text: a string
   * itself, a dictionary its "text" entry, anything else nothing. None
   * stands for the TypeError raised when a "text" entry is not a string.
   */
  function ItemText(item: Json): Option<string> {
    match item
    case Str(s) => Some(s)
    case Obj(fields) =>
      if "text" in fields then (if fields["text"].Str? then Some(fields["text"].s) else None)
      else Some("")
    case _ => Some("")
  }

  function Combine(a: Option<string>, b: Option<string>): Option<string> {
    if a.Some? && b.Some? then Some(a.value + b.value) else None
  }

  /** The text of a list of content blocks; None if any block raises. */
  function BlocksText(items: seq<Json>): Option<string> {
    if items == [] then Some("")
    else Combine(BlocksText(items[..|items| - 1]), ItemText(items[|items| - 1]))
  }

  /** The text of a list is the concatenation of the texts of its parts. */
  lemma {:induction false} BlocksTextConcat(a: seq<Json>, b: seq<Json>)
    ensures BlocksText(a + b) == Combine(BlocksText(a), BlocksText(b))
  {
    if b == [] {
      assert a + b == a;
      if BlocksText(a).Some? {
        assert BlocksText(a).value + "" == BlocksText(a).value;
      }
    } else {
      var init := b[..|b| - 1];
      var last := b[|b| - 1];
      assert (a + b)[..|a + b| - 1] == a + init;
      assert (a + b)[|a + b| - 1] == last;
      BlocksTextConcat(a, init);
      var x, y, z := BlocksText(a), BlocksText(init), ItemText(last);
      if x.Some? && y.Some? && z.Some? {
        assert (x.value + y.value) + z.value == x.value + (y.value + z.value);
      }
    }
  }

  /** Flattening fails exactly when some dictionary block has a "text" entry that is not a string. */
  lemma {:induction false} BlocksTextFails(items: seq<Json>)
    ensures BlocksText(items).None? <==> exists i :: 0 <= i < |items| && ItemText(items[i]).None?
  {
    if items != [] {
      var prefix := items[..|items| - 1];
      BlocksTextFails(prefix);
      assert forall i :: 0 <= i < |prefix| ==> prefix[i] == items[i];
    }
  }

  /** Items that are neither strings nor dictionaries are ignored. */
  lemma BlocksTextIgnoresOthers(a: seq<Json>, x: Json, b: seq<Json>)
    requires !x.Str? && !x.Obj?
    ensures BlocksText(a + [x] + b) == BlocksText(a + b)
  {
    BlocksTextConcat(a + [x], b);
    BlocksTextConcat(a, [x]);
    assert [x][..0] == [];
    assert ItemText(x) == Some("");
    var empty: string := "";
    assert empty + empty == empty;
    assert BlocksText([x]) == Combine(BlocksText([]), ItemText(x));
    assert BlocksText([x]) == Some("");
    BlocksTextConcat(a, b);
    if BlocksText(a).Some? {
      assert BlocksText(a).value + "" == BlocksText(a).value;
    }
  }

  /** The `+=` loop over the blocks of a list-valued content. */
  method JoinBlocks(items: seq<Json>) returns (text: Option<string>)
    ensures text == BlocksText(items)
  {
    var acc := "";
    for i := 0 to |items|
      invariant BlocksText(items[..i]) == Some(acc)
    {
      assert items[..i + 1][..i] == items[..i];
      var item := items[i];
      assert acc + "" == acc;
      if item.Obj? {
        if "text" in item.fields {
          if !item.fields["text"].Str? {
            assert items == items[..i + 1] + items[i + 1..];
            BlocksTextConcat(items[..i + 1], items[i + 1..]);
            return None;
          }
          acc := acc + item.fields["text"].s;
        } else if "type" in item.fields && item.fields["type"] == Str("text") {
          // item.get("text", "") adds nothing: "text" is absent here.
        }
      } else if item.Str? {
        acc := acc + item.s;
      }
    }
    assert items[..|items|] == items;
    return Some(acc);
  }

  /**
   * The text of a message content: a string as it is, a list through
   * BlocksText, a dictionary its "text" entry, anything else its string
   * form. None means the content has no text: a block raised TypeError,
   * or the dictionary's "text" entry is not a string.
   */
  function ContentText(content: Json, render: Json -> string): Option<string> {
    match content
    case Str(s) => Some(s)
    case Arr(items) => BlocksText(items)
    case Obj(fields) =>
      if "text" in fields then (if fields["text"].Str? then Some(fields["text"].s) else None)
      else Some(render(content))
    case _ => Some(render(content))
  }

  /**
   * The endpoints' flattening loop, which appends block by block. It is
   * proved to compute ContentText, the definition the reply and stream
   * specifications and their lemmas are stated with.
   */
  method FlattenContent(content: Json, render: Json -> string) returns (text: Option<string>)
    ensures text == ContentText(content, render)
  {
    match content
    case Str(s) =>
      text := Some(s);
    case Arr(items) =>
      text := JoinBlocks(items);
    case Obj(fields) =>
      if "text" in fields {
        text := if fields["text"].Str? then Some(fields["text"].s) else None;
      } else {
        text := Some(render(content));
      }
    case _ =>
      text := Some(render(content));
  }

  // ---------------------------------------------------------------------
  // Non-streaming chat

  datatype ChatReply = ChatReply(response: string, toolsUsed: seq<string>)

  /**
   * What the non-streaming loop assigns as the answer for one answer's
   * content: a dictionary's "text" entry is taken as it is, whatever its
   * type; everything else is flattened. None stands for the TypeError
   * raised while joining a block list.
   */
  function AnswerValue(content: Json, render: Json -> string): Option<Json> {
    if content.Obj? && "text" in content.fields then Some(content.fields["text"])
    else
      var text := ContentText(content, render);
      if text.None? then None else Some(Str(text.value))
  }

  /** The raw answer agrees with the flattened text wherever that is defined, and is then a string. */
  lemma AnswerValueAgrees(content: Json, render: Json -> string)
    ensures ContentText(content, render).Some? ==> AnswerValue(content, render) == Some(Str(ContentText(content, render).value))
    ensures AnswerValue(content, render).Some? && AnswerValue(content, render).value.Str? ==>
              ContentText(content, render) == Some(AnswerValue(content, render).value.s)
    ensures AnswerValue(content, render).None? <==> ContentText(content, render).None? && !content.Obj?
  {
  }

  /** The loop's state: the answer so far (not yet checked to be text) and the tools called. */
  datatype Progress = Progress(answer: Json, toolsUsed: seq<string>)

  /**
   * The answer and tool list after a sequence of events: every tool call's
   * "name" is recorded, duplicates included; every answer replaces the
   * previous one. None stands for an error raised inside the loop (a call
   * without "name", or a block list that cannot be joined).
   */
  function Collect(events: seq<AgentMessage>, render: Json -> string): Option<Progress> {
    if events == [] then Some(Progress(Str(""), []))
    else
      var before := Collect(events[..|events| - 1], render);
      if before.None? then None
      else match events[|events| - 1]
        case AiMessage(content, calls) =>
          if calls != [] then
            var names := CallNames(calls);
            if names.None? then None else Some(before.value.(toolsUsed := before.value.toolsUsed + names.value))
          else
            var answer := AnswerValue(content, render);
            if answer.None? then None else Some(before.value.(answer := answer.value))
        case _ => before
  }

  /**
   * The reply: the collected answer and tools, or None when the loop
   * raised or the final answer is not text (the response model requires
   * a string, so storing or returning it fails).
   */
  function CollectReply(events: seq<AgentMessage>, render: Json -> string): Option<ChatReply> {
    var p := Collect(events, render);
    if p.None? || !p.value.answer.Str? then None else Some(ChatReply(p.value.answer.s, p.value.toolsUsed))
  }

  /** The "name" entry of every call, in order, or None (a KeyError) if one of them has none. */
  function CallNames(calls: seq<ToolCall>): (r: Option<seq<string>>)
    ensures r.Some? ==> |r.value| == |calls|
    ensures r.Some? ==> forall i :: 0 <= i < |calls| ==> calls[i].name == Some(r.value[i])
    ensures r.None? <==> exists i :: 0 <= i < |calls| && calls[i].name.None?
  {
    if calls == [] then Some([])
    else
      var before := CallNames(calls[..|calls| - 1]);
      assert forall i :: 0 <= i < |calls| - 1 ==> calls[..|calls| - 1][i] == calls[i];
      var last := calls[|calls| - 1];
      if before.None? || last.name.None? then None else Some(before.value + [last.name.value])
  }

  /** The non-streaming chat loop over the agent's events. */
  method ChatAnswer(events: seq<AgentMessage>, render: Json -> string) returns (reply: Option<ChatReply>)
    ensures reply == CollectReply(events, render)
  {
    var finalAnswer := Str("");
    var toolsUsed := [];
    for i := 0 to |events|
      invariant Collect(events[..i], render) == Some(Progress(finalAnswer, toolsUsed))
    {
      assert events[..i + 1][..i] == events[..i];
      var lastMsg := events[i];
      if lastMsg.AiMessage? {
        if lastMsg.toolCalls != [] {
          var calls := lastMsg.toolCalls;
          ghost var before := toolsUsed;
          for j := 0 to |calls|
            invariant CallNames(calls[..j]).Some?
            invariant toolsUsed == before + CallNames(calls[..j]).value
          {
            assert calls[..j + 1][..j] == calls[..j];
            if calls[j].name.None? {
              // call['name'] raises KeyError
              assert CallNames(calls[..j + 1]).None?;
              assert calls == calls[..j + 1] + calls[j + 1..];
              NoNameStops(calls[..j + 1], calls[j + 1..]);
              CollectStops(events, i + 1, render);
              return None;
            }
            toolsUsed := toolsUsed + [calls[j].name.value];
          }
          assert calls[..|calls|] == calls;
        } else if lastMsg.content.Obj? && "text" in lastMsg.content.fields {
          finalAnswer := lastMsg.content.fields["text"];
        } else {
          var text := FlattenContent(lastMsg.content, render);
          if text.None? {
            CollectStops(events, i + 1, render);
            return None;
          }
          finalAnswer := Str(text.value);
        }
      }
    }
    assert events[..|events|] == events;
    if !finalAnswer.Str? {
      // the response model rejects an answer that is not a string
      return None;
    }
    return Some(ChatReply(finalAnswer.s, toolsUsed));
  }

  lemma NoNameStops(a: seq<ToolCall>, b: seq<ToolCall>)
    requires CallNames(a).None?
    ensures CallNames(a + b).None?
  {
    var i :| 0 <= i < |a| && a[i].name.None?;
    assert (a + b)[i] == a[i];
  }

  /** Once the loop has raised, later events do not revive it. */
  lemma {:induction false} CollectStops(events: seq<AgentMessage>, n: nat, render: Json -> string)
    requires n <= |events|
    requires Collect(events[..n], render).None?
    ensures Collect(events, render).None?
    decreases |events| - n
  {
    if n < |events| {
      assert events[..n + 1][..n] == events[..n];
      CollectStops(events, n + 1, render);
    } else {
      assert events[..n] == events;
    }
  }

  /** The collected answer is the raw answer of the last answer event, as in the command-line fold. */
  lemma {:induction false} CollectedAnswerIsLast(events: seq<AgentMessage>, render: Json -> string)
    requires Collect(events, render).Some?
    ensures AnswerValue(DynamicAgent.LastAnswer(events), render) == Some(Collect(events, render).value.answer)
  {
    if events == [] {
      assert ContentText(Str(""), render) == Some("");
    } else {
      var prefix := events[..|events| - 1];
      var last := events[|events| - 1];
      if !IsAnswer(last) {
        CollectedAnswerIsLast(prefix, render);
      }
    }
  }

  /**
   * The non-streaming reply agrees with the command-line run: the response
   * is the flattened text of the last answer's content, whatever its shape.
   */
  lemma ReplyIsLastAnswer(events: seq<AgentMessage>, render: Json -> string)
    requires CollectReply(events, render).Some?
    ensures ContentText(DynamicAgent.LastAnswer(events), render).Some?
    ensures CollectReply(events, render).value.response == ContentText(DynamicAgent.LastAnswer(events), render).value
  {
    CollectedAnswerIsLast(events, render);
    AnswerValueAgrees(DynamicAgent.LastAnswer(events), render);
  }

  /**
   * A text answer replaces whatever answer came before, including one that
   * is not text: the reply is that text with the tools collected so far.
   */
  lemma TextAnswerReplaces(events: seq<AgentMessage>, text: string, render: Json -> string)
    requires Collect(events, render).Some?
    ensures CollectReply(events + [AiMessage(Str(text), [])], render)
            == Some(ChatReply(text, Collect(events, render).value.toolsUsed))
  {
    assert (events + [AiMessage(Str(text), [])])[..|events|] == events;
  }

  // ---------------------------------------------------------------------
  // Streaming chat

  datatype StreamError = ToolNotFound(message: string) | ExecutionFailed

  /** The server-sent events, without their JSON framing. */
  datatype Emitted =
    | Chunk(c: char)
    | ToolStarted(name: string)
    | Failed(error: StreamError)
    | Done(toolsUsed: seq<string>)

  /** The streaming loop's variables: what has been sent, full_response, tool_calls_made, and whether it stopped. */
  datatype StreamState = StreamState(out: seq<Emitted>, full: string, tools: seq<string>, stopped: bool)

  const Initial := StreamState([], "", [], false)

  /** A call's "name" when it is a non-empty string, else its "tool_name", else "unknown". */
  function CallName(call: ToolCall): string {
    if Given(call.name) then call.name.value
    else if call.toolName.Some? then call.toolName.value
    else "unknown"
  }

  function ToolNotFoundMessage(name: string, toolNames: seq<string>): string {
    "Tool '" + name + "' not found. Available tools are: " + Text.Join(toolNames, ", ")
    + ". Please only use tools from the available list."
  }

  /** What the content has beyond the length already sent; empty when the content is the shorter. */
  function NewText(full: string, content: string): string {
    if |full| <= |content| then content[|full|..] else ""
  }

  function Chunks(s: string): (r: seq<Emitted>)
    ensures |r| == |s|
    ensures forall i :: 0 <= i < |s| ==> r[i] == Chunk(s[i])
  {
    seq(|s|, i requires 0 <= i < |s| => Chunk(s[i]))
  }

  function CallStep(st: StreamState, call: ToolCall, toolNames: seq<string>): StreamState {
    if st.stopped then st
    else
      var name := CallName(call);
      if name !in toolNames then
        st.(out := st.out + [Failed(ToolNotFound(ToolNotFoundMessage(name, toolNames)))], stopped := true)
      else if name in st.tools then st
      else st.(out := st.out + [ToolStarted(name)], tools := st.tools + [name])
  }

  function CallsStep(st: StreamState, calls: seq<ToolCall>, toolNames: seq<string>): StreamState {
    if calls == [] then st
    else CallStep(CallsStep(st, calls[..|calls| - 1], toolNames), calls[|calls| - 1], toolNames)
  }

  /**
   * A dictionary content whose "text" entry is falsy: the stream takes that
   * entry as the content and its truth test skips the event.
   */
  predicate FalsyTextEntry(content: Json) {
    content.Obj? && "text" in content.fields && !Truthy(content.fields["text"])
  }

  function EventStep(st: StreamState, m: AgentMessage, toolNames: seq<string>, render: Json -> string): StreamState {
    if st.stopped then st
    else match m
      case AiMessage(content, calls) =>
        if calls != [] then CallsStep(st, calls, toolNames)
        else if !Truthy(content) || FalsyTextEntry(content) then st
        else
          var text := ContentText(content, render);
          if text.None? then st.(out := st.out + [Failed(ExecutionFailed)], stopped := true)
          else if text.value != "" && text.value != st.full then
            var delta := NewText(st.full, text.value);
            st.(out := st.out + Chunks(delta), full := st.full + delta)
          else st
      case _ => st
  }

  function StreamEvents(events: seq<AgentMessage>, toolNames: seq<string>, render: Json -> string): StreamState {
    if events == [] then Initial
    else EventStep(StreamEvents(events[..|events| - 1], toolNames, render), events[|events| - 1], toolNames, render)
  }

  /** The whole stream: the events' output, closed by a Done event unless it stopped on an error. */
  function StreamAnswer(events: seq<AgentMessage>, toolNames: seq<string>, render: Json -> string): StreamState {
    var st := StreamEvents(events, toolNames, render);
    if st.stopped then st else st.(out := st.out + [Done(st.tools)])
  }

  lemma {:induction false} CallsStepStops(st: StreamState, calls: seq<ToolCall>, n: nat, toolNames: seq<string>)
    requires n <= |calls|
    requires CallsStep(st, calls[..n], toolNames).stopped
    ensures CallsStep(st, calls, toolNames) == CallsStep(st, calls[..n], toolNames)
    decreases |calls| - n
  {
    if n < |calls| {
      assert calls[..n + 1][..n] == calls[..n];
      CallsStepStops(st, calls, n + 1, toolNames);
    } else {
      assert calls[..n] == calls;
    }
  }

  lemma {:induction false} StreamEventsStops(events: seq<AgentMessage>, n: nat, toolNames: seq<string>, render: Json -> string)
    requires n <= |events|
    requires StreamEvents(events[..n], toolNames, render).stopped
    ensures StreamEvents(events, toolNames, render) == StreamEvents(events[..n], toolNames, render)
    decreases |events| - n
  {
    if n < |events| {
      assert events[..n + 1][..n] == events[..n];
      StreamEventsStops(events, n + 1, toolNames, render);
    } else {
      assert events[..n] == events;
    }
  }

  /**
   * The streaming agent loop: for each tool call, the first use of each
   * tool is reported (an unknown tool ends the stream with an error); for
   * each answer, the characters beyond the length already sent are sent
   * one by one and appended to full_response.
   */
  method StreamAgent(events: seq<AgentMessage>, toolNames: seq<string>, render: Json -> string)
    returns (out: seq<Emitted>, fullResponse: string, toolCallsMade: seq<string>)
    ensures var spec := StreamAnswer(events, toolNames, render);
            out == spec.out && fullResponse == spec.full && toolCallsMade == spec.tools
  {
    out, fullResponse, toolCallsMade := [], "", [];
    var seenTools: set<string> := {};
    for i := 0 to |events|
      invariant StreamEvents(events[..i], toolNames, render) == StreamState(out, fullResponse, toolCallsMade, false)
      invariant forall n :: n in seenTools <==> n in toolCallsMade
    {
      assert events[..i + 1][..i] == events[..i];
      var lastMsg := events[i];
      ghost var st0 := StreamState(out, fullResponse, toolCallsMade, false);
      if lastMsg.AiMessage? {
        if lastMsg.toolCalls != [] {
          var calls := lastMsg.toolCalls;
          for j := 0 to |calls|
            invariant CallsStep(st0, calls[..j], toolNames) == StreamState(out, fullResponse, toolCallsMade, false)
            invariant forall n :: n in seenTools <==> n in toolCallsMade
          {
            assert calls[..j + 1][..j] == calls[..j];
            var toolName := CallName(calls[j]);
            if toolName !in toolNames {
              out := out + [Failed(ToolNotFound(ToolNotFoundMessage(toolName, toolNames)))];
              CallsStepStops(st0, calls, j + 1, toolNames);
              StreamEventsStops(events, i + 1, toolNames, render);
              return;
            }
            if toolName !in seenTools {
              toolCallsMade := toolCallsMade + [toolName];
              seenTools := seenTools + {toolName};
              out := out + [ToolStarted(toolName)];
            }
          }
          assert calls[..|calls|] == calls;
        } else if Truthy(lastMsg.content) && !FalsyTextEntry(lastMsg.content) {
          var content := FlattenContent(lastMsg.content, render);
          if content.None? {
            out := out + [Failed(ExecutionFailed)];
            StreamEventsStops(events, i + 1, toolNames, render);
            return;
          }
          if content.value != "" && content.value != fullResponse {
            var newContent := NewText(fullResponse, content.value);
            ghost var out0, full0 := out, fullResponse;
            for k := 0 to |newContent|
              invariant fullResponse == full0 + newContent[..k]
              invariant out == out0 + Chunks(newContent[..k])
            {
              assert newContent[..k + 1] == newContent[..k] + [newContent[k]];
              fullResponse := fullResponse + [newContent[k]];
              out := out + [Chunk(newContent[k])];
            }
            assert newContent[..|newContent|] == newContent;
          }
        }
      }
    }
    assert events[..|events|] == events;
    out := out + [Done(toolCallsMade)];
  }

  // ---------------------------------------------------------------------
  // What the stream promises

  /** The characters sent as chunks, in order. */
  function ChunkText(out: seq<Emitted>): string {
    if out == [] then ""
    else ChunkText(out[..|out| - 1]) + (if out[|out| - 1].Chunk? then [out[|out| - 1].c] else "")
  }

  /** The tools reported as started, in order. */
  function StartedTools(out: seq<Emitted>): seq<string> {
    if out == [] then []
    else StartedTools(out[..|out| - 1]) + (if out[|out| - 1].ToolStarted? then [out[|out| - 1].name] else [])
  }

  lemma {:induction false} OutConcat(a: seq<Emitted>, b: seq<Emitted>)
    ensures ChunkText(a + b) == ChunkText(a) + ChunkText(b)
    ensures StartedTools(a + b) == StartedTools(a) + StartedTools(b)
  {
    if b == [] {
      assert a + b == a;
    } else {
      var init := b[..|b| - 1];
      assert (a + b)[..|a + b| - 1] == a + init;
      assert (a + b)[|a + b| - 1] == b[|b| - 1];
      OutConcat(a, init);
    }
  }

  lemma {:induction false} ChunksSpell(s: string)
    ensures ChunkText(Chunks(s)) == s
    ensures StartedTools(Chunks(s)) == []
  {
    if s != [] {
      var init := s[..|s| - 1];
      assert Chunks(s)[..|s| - 1] == Chunks(init);
      ChunksSpell(init);
      assert s == init + [s[|s| - 1]];
    }
  }

  /** Names of all tool calls of the events, in the order they occur. */
  function CallNamesOf(calls: seq<ToolCall>): (r: seq<string>)
    ensures |r| == |calls|
  {
    if calls == [] then [] else CallNamesOf(calls[..|calls| - 1]) + [CallName(calls[|calls| - 1])]
  }

  function EventCallNames(m: AgentMessage): seq<string> {
    if m.AiMessage? && m.toolCalls != [] then CallNamesOf(m.toolCalls) else []
  }

  function AllCallNames(events: seq<AgentMessage>): seq<string> {
    if events == [] then [] else AllCallNames(events[..|events| - 1]) + EventCallNames(events[|events| - 1])
  }

  /** `acc` followed by the names not seen before, each at its first occurrence. */
  function DedupOnto(acc: seq<string>, names: seq<string>): seq<string> {
    if names == [] then acc
    else
      var before := DedupOnto(acc, names[..|names| - 1]);
      if names[|names| - 1] in before then before else before + [names[|names| - 1]]
  }

  /** Deduplication keeps `acc` in front, keeps every name once, and adds nothing else. */
  lemma {:induction false} DedupOntoSpec(acc: seq<string>, names: seq<string>)
    requires Text.Distinct(acc)
    ensures Text.Distinct(DedupOnto(acc, names))
    ensures IsPrefixSeq(acc, DedupOnto(acc, names))
    ensures forall n :: n in DedupOnto(acc, names) <==> n in acc || n in names
  {
    if names != [] {
      var init := names[..|names| - 1];
      DedupOntoSpec(acc, init);
      assert names == init + [names[|names| - 1]];
    }
  }

  predicate IsPrefixSeq(p: seq<string>, s: seq<string>) {
    |p| <= |s| && s[..|p|] == p
  }

  lemma {:induction false} DedupOntoConcat(acc: seq<string>, x: seq<string>, y: seq<string>)
    ensures DedupOnto(acc, x + y) == DedupOnto(DedupOnto(acc, x), y)
  {
    if y == [] {
      assert x + y == x;
    } else {
      var init := y[..|y| - 1];
      assert (x + y)[..|x + y| - 1] == x + init;
      assert (x + y)[|x + y| - 1] == y[|y| - 1];
      DedupOntoConcat(acc, x, init);
    }
  }

  /** The invariant the streaming loop keeps between events. */
  predicate Coherent(st: StreamState) {
    && ChunkText(st.out) == st.full
    && StartedTools(st.out) == st.tools
    && Text.Distinct(st.tools)
    && (!st.stopped ==> forall i :: 0 <= i < |st.out| ==> st.out[i].Chunk? || st.out[i].ToolStarted?)
    && (st.stopped ==> |st.out| > 0 && st.out[|st.out| - 1].Failed?)
  }

  lemma CallStepCoherent(st: StreamState, call: ToolCall, toolNames: seq<string>)
    requires Coherent(st)
    ensures Coherent(CallStep(st, call, toolNames))
  {
    var st' := CallStep(st, call, toolNames);
    if !st.stopped && st' != st {
      OutConcat(st.out, [st'.out[|st'.out| - 1]]);
      assert st'.out == st.out + [st'.out[|st'.out| - 1]];
      assert [st'.out[|st'.out| - 1]][..0] == [];
      if !st'.stopped {
        assert st.full + "" == st.full;
      }
    }
  }

  lemma {:induction false} CallsStepCoherent(st: StreamState, calls: seq<ToolCall>, toolNames: seq<string>)
    requires Coherent(st)
    ensures Coherent(CallsStep(st, calls, toolNames))
    ensures st.stopped ==> CallsStep(st, calls, toolNames) == st
    ensures !CallsStep(st, calls, toolNames).stopped ==>
              CallsStep(st, calls, toolNames).full == st.full &&
              CallsStep(st, calls, toolNames).tools == DedupOnto(st.tools, CallNamesOf(calls))
  {
    if calls != [] {
      var init := calls[..|calls| - 1];
      CallsStepCoherent(st, init, toolNames);
      CallStepCoherent(CallsStep(st, init, toolNames), calls[|calls| - 1], toolNames);
      assert CallNamesOf(calls)[..|calls| - 1] == CallNamesOf(init);
    }
  }

  lemma EventStepCoherent(st: StreamState, m: AgentMessage, toolNames: seq<string>, render: Json -> string)
    requires Coherent(st)
    ensures Coherent(EventStep(st, m, toolNames, render))
    ensures !EventStep(st, m, toolNames, render).stopped ==>
              EventStep(st, m, toolNames, render).tools == DedupOnto(st.tools, EventCallNames(m))
  {
    if !st.stopped && m.AiMessage? {
      if m.toolCalls != [] {
        CallsStepCoherent(st, m.toolCalls, toolNames);
      } else if Truthy(m.content) && !FalsyTextEntry(m.content) {
        var text := ContentText(m.content, render);
        if text.None? {
          FailStepCoherent(st);
        } else if text.value != "" && text.value != st.full {
          ChunksStepCoherent(st, NewText(st.full, text.value));
        }
      }
    }
  }

  /** Ending the stream on an error keeps it coherent. */
  lemma FailStepCoherent(st: StreamState)
    requires Coherent(st)
    ensures Coherent(st.(out := st.out + [Failed(ExecutionFailed)], stopped := true))
  {
    OutConcat(st.out, [Failed(ExecutionFailed)]);
    assert [Failed(ExecutionFailed)][..0] == [];
  }

  /** Sending new text one character per chunk keeps a running stream coherent. */
  lemma ChunksStepCoherent(st: StreamState, delta: string)
    requires Coherent(st) && !st.stopped
    ensures Coherent(st.(out := st.out + Chunks(delta), full := st.full + delta))
  {
    var st' := st.(out := st.out + Chunks(delta), full := st.full + delta);
    OutConcat(st.out, Chunks(delta));
    ChunksSpell(delta);
    assert st.tools + [] == st.tools;
    forall i | 0 <= i < |st'.out|
      ensures st'.out[i].Chunk? || st'.out[i].ToolStarted?
    {
      if i >= |st.out| {
        assert st'.out[i] == Chunks(delta)[i - |st.out|];
      }
    }
  }

  lemma {:induction false} StreamEventsCoherent(events: seq<AgentMessage>, toolNames: seq<string>, render: Json -> string)
    ensures Coherent(StreamEvents(events, toolNames, render))
    ensures !StreamEvents(events, toolNames, render).stopped ==>
              StreamEvents(events, toolNames, render).tools == DedupOnto([], AllCallNames(events))
  {
    if events != [] {
      var init := events[..|events| - 1];
      var last := events[|events| - 1];
      StreamEventsCoherent(init, toolNames, render);
      var st := StreamEvents(init, toolNames, render);
      EventStepCoherent(st, last, toolNames, render);
      if !StreamEvents(events, toolNames, render).stopped {
        assert !st.stopped;
        DedupOntoConcat([], AllCallNames(init), EventCallNames(last));
      }
    }
  }

  /**
   * The stream as a whole: its chunks spell the full response; each tool
   * it reports is reported once, in the order of first use; and it ends
   * either with Done listing exactly those tools, with nothing but chunks
   * and tool reports before it, or with the one error that stopped it.
   */
  lemma StreamAnswerShape(events: seq<AgentMessage>, toolNames: seq<string>, render: Json -> string)
    ensures var st := StreamAnswer(events, toolNames, render);
      && ChunkText(st.out) == st.full
      && Text.Distinct(st.tools)
      && |st.out| > 0
      && (st.stopped <==> st.out[|st.out| - 1].Failed?)
      && (!st.stopped ==>
            && st.out[|st.out| - 1] == Done(st.tools)
            && StartedTools(st.out[..|st.out| - 1]) == st.tools
            && st.tools == DedupOnto([], AllCallNames(events))
            && forall i :: 0 <= i < |st.out| - 1 ==> st.out[i].Chunk? || st.out[i].ToolStarted?)
  {
    var st := StreamEvents(events, toolNames, render);
    StreamEventsCoherent(events, toolNames, render);
    if !st.stopped {
      var done := st.out + [Done(st.tools)];
      OutConcat(st.out, [Done(st.tools)]);
      assert [Done(st.tools)][..0] == [];
      assert st.full + "" == st.full;
      assert done[..|done| - 1] == st.out;
    }
  }

  /** The tools reported are the tools called, each once, in order of first use. */
  lemma StreamedToolsAreCalledOnce(events: seq<AgentMessage>, toolNames: seq<string>, render: Json -> string)
    requires !StreamAnswer(events, toolNames, render).stopped
    ensures var tools := StreamAnswer(events, toolNames, render).tools;
      Text.Distinct(tools) && forall n :: n in tools <==> n in AllCallNames(events)
  {
    StreamAnswerShape(events, toolNames, render);
    DedupOntoSpec([], AllCallNames(events));
  }

  /**
   * When an answer extends what was already sent, exactly the extension is
   * sent and full_response becomes the answer; an answer shorter than what
   * was sent adds nothing.
   */
  lemma NewTextExtends(full: string, content: string)
    ensures Text.IsPrefix(full, content) ==> full + NewText(full, content) == content
    ensures |content| < |full| ==> NewText(full, content) == ""
  {
    if Text.IsPrefix(full, content) {
      assert content == content[..|full|] + content[|full|..];
    }
  }
}

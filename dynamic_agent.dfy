/**
 * The command-line agent with dynamically configured tool servers: its
 * server-list loader, which falls back to a single placeholder record, and
 * the fold that picks the final answer out of the agent's event stream.
 */
module DynamicAgent {
  import opened Wrappers
  import opened Json
  import opened Events
  import opened Config

  /** The record used when neither the environment nor the file yielded a server. */
  const Placeholder: Record := map[]

  /**
   * `load_mcp_servers_config`: like Config.LoadMcpServers, except that an
   * empty result from the environment and the file is replaced by one
   * placeholder record before the additional servers are appended.
   */
  method LoadMcpServersConfig(env: Source, file: Source, additional: Option<seq<Record>>)
    returns (servers: seq<Record>)
    ensures servers != []
    ensures Contribution(env) + Contribution(file) == [] ==> servers == [Placeholder] + Extra(additional)
    ensures Contribution(env) + Contribution(file) != [] ==>
      servers == Contribution(env) + Contribution(file) + Extra(additional)
    ensures servers[|servers| - |Extra(additional)|..] == Extra(additional)
  {
    servers := [];
    if env.Parsed? {
      servers := servers + env.servers;
    }
    if file.Parsed? {
      servers := servers + file.servers;
    }
    assert servers == Contribution(env) + Contribution(file);
    if servers == [] {
      servers := [Placeholder];
    }
    ghost var loaded := servers;
    if additional.Some? && additional.value != [] {
      servers := servers + additional.value;
    }
    assert servers == loaded + Extra(additional);
    assert servers[|loaded|..] == Extra(additional);
  }

  /** The content of the last answer in the stream, or "" when there is none. */
  function LastAnswer(events: seq<AgentMessage>): Json {
    if events == [] then Str("")
    else if IsAnswer(events[|events| - 1]) then events[|events| - 1].content
    else LastAnswer(events[..|events| - 1])
  }

  /** `run_query`: every answer overwrites the previous one; tool calls and tool output do not. */
  method RunQuery(events: seq<AgentMessage>) returns (finalAnswer: Json)
    ensures finalAnswer == LastAnswer(events)
  {
    finalAnswer := Str("");
    for i := 0 to |events|
      invariant finalAnswer == LastAnswer(events[..i])
    {
      var lastMsg := events[i];
      assert events[..i + 1][..i] == events[..i];
      if lastMsg.AiMessage? {
        if lastMsg.toolCalls == [] {
          finalAnswer := lastMsg.content;
        }
      }
    }
    assert events[..|events|] == events;
  }

  /**
   * The result of a run is the content of an answer after which no other
   * answer arrives, or "" when the stream holds no answer at all.
   */
  lemma {:induction false} LastAnswerIsLatest(events: seq<AgentMessage>)
    ensures (forall i :: 0 <= i < |events| ==> !IsAnswer(events[i])) ==> LastAnswer(events) == Str("")
    ensures (exists i :: 0 <= i < |events| && IsAnswer(events[i])) ==>
      exists k :: 0 <= k < |events| && IsAnswer(events[k]) && LastAnswer(events) == events[k].content
        && forall j :: k < j < |events| ==> !IsAnswer(events[j])
  {
    if events != [] {
      var prefix := events[..|events| - 1];
      LastAnswerIsLatest(prefix);
      assert forall i :: 0 <= i < |prefix| ==> prefix[i] == events[i];
      if !IsAnswer(events[|events| - 1]) {
        NonAnswerKeepsFinal(prefix, events[|events| - 1]);
        assert prefix + [events[|events| - 1]] == events;
        if exists i :: 0 <= i < |events| && IsAnswer(events[i]) {
          var i :| 0 <= i < |events| && IsAnswer(events[i]);
          assert IsAnswer(prefix[i]);
        }
      }
    }
  }

  /** Appending a message that is not an answer leaves the final answer unchanged. */
  lemma {:induction false} NonAnswerKeepsFinal(events: seq<AgentMessage>, m: AgentMessage)
    requires !IsAnswer(m)
    ensures LastAnswer(events + [m]) == LastAnswer(events)
  {
    assert (events + [m])[..|events|] == events;
  }
}

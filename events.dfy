/**
 * The agent's value stream as the backend and the CLI consume it: each
 * event is represented by the last message of its message list.
 */
module Events {
  import opened Wrappers
  import opened Json

  /** A tool call requested by the model, with its "name" and "tool_name" entries. */
  datatype ToolCall = ToolCall(name: Option<string>, toolName: Option<string>)

  datatype AgentMessage =
    | AiMessage(content: Json, toolCalls: seq<ToolCall>)
    | ToolMessage(toolName: string, content: Json)
    | OtherMessage(content: Json)

  /** An AI message without tool calls: the agent's answer. */
  predicate IsAnswer(m: AgentMessage) {
    m.AiMessage? && m.toolCalls == []
  }
}

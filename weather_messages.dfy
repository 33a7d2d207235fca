/** The messages and trace spans exchanged by the weather service's tool-calling graph. */
module WeatherMessages {

  /** A tool call requested by the model: its id, the tool's name and its arguments. */
  datatype ToolCall = ToolCall(id: string, name: string, args: map<string, string>)

  /** The message kinds of the graph's `messages` list. Only an AI message
      carries tool calls (an empty list when it asks for none). */
  datatype Message =
    | SystemMessage(content: string)
    | HumanMessage(content: string)
    | AIMessage(content: string, toolCalls: seq<ToolCall>)
    | ToolMessage(content: string, toolCallId: string)

  /** `isinstance(msg, AIMessage) and msg.tool_calls`: an AI message asking for tools. */
  predicate HasToolCalls(m: Message) {
    m.AIMessage? && |m.toolCalls| > 0
  }

  /** `isinstance(result, AIMessage) and not result.tool_calls`: an AI message that answers. */
  predicate IsFinalReply(m: Message) {
    m.AIMessage? && |m.toolCalls| == 0
  }

  function Last(messages: seq<Message>): Message
    requires |messages| > 0
  {
    messages[|messages| - 1]
  }

  /** A trace span as far as the graph shapes it: its name and attributes. */
  datatype Span = Span(name: string, attributes: map<string, string>)
}

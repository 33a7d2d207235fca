# Agent examples: conversation memory and the weather tool graph, in Dafny

This project models the two pieces of in-memory logic under the agent
services' HTTP, A2A and model-client plumbing, and proves what they promise.

**Conversation memory of the chat services (cheerup, trivia, recipe).** Each
service keeps a module-level table `_conversations` from a `context_id` to
the list of `{role, content}` entries of that conversation. A `chat` turn
registers the id on first use (the table is a `defaultdict`), appends the
user entry, sends the system prompt followed by the whole history to the
model, appends the model's reply as an assistant entry and returns it. The
three `chat` functions are the same code with a different prompt, so they are
modelled once, as the class `ConversationMemory.ChatService` parameterised
by the prompt (`conversation_memory.dfy`). Each service module
(`cheerup_llm.dfy`, `trivia_agent_llm.dfy`, `recipe_llm.dfy`) holds its exact
prompt and creates its own fresh, empty table. The class's `Chat` method
changes the table in place. It is proved against the function `Turn`, which
states what one turn does to one history. The function `Conversation` and its
lemmas describe any number of turns on one history.

**The weather service's tool-calling graph (`graph.py`).** The `assistant`
node sends `sys_msg` followed by the messages to the tool-bound model. It
appends the reply, and it sets `final_answer` when the reply is an AI message
without tool calls (`AgentState.Assistant`, `weather_graph.dfy`). The `tools`
node (`traced_tool_node.dfy`) scans the messages backwards for the most
recent AI message with tool calls. It names its span after those tools, then
returns what the library's tool node returns. The edges START → assistant,
assistant → tools or end, and tools → assistant make a two-state machine
(`NextNode`, `Step`, `Run`). Its invariant `Routed` shows that a finished run
ends on a message asking for no tool, whose content, when it is an AI
message, is the final answer.

A turn's reply is `Success` only when `chat` would return a string. Two
failure paths are easy to miss in the code, and both are modelled. A
response with no choice raises at `choices[0]` before anything else is
stored. A null reply content is stored as an assistant entry, and then the
log line raises on it (`ChatError.NullContent`). No path rolls back what was
appended. `graph.py` sets no cap of its own on tool rounds. The only bound is
the graph library's recursion limit, which `Run` takes as its `fuel`
parameter. The code has no eviction of histories and no check that tool
calls and results pair up, and the model adds neither.

The model client, the tool executor and the library's tool node are oracles:
total functions passed as parameters, from what they are sent to what they
return or raise. A raised exception is a `Failure` value.

## Model

| member | source | states |
|---|---|---|
| `ConversationMemory.ChatService.Chat` | a2a/cheerup_agent/src/cheerup_agent/cheerup_llm.py:33-58 | the table after a turn is the old table with this id's history replaced by `Turn`'s. The reply is `Turn`'s reply. The id is registered even when the turn fails. A new id starts from an empty history. Every other id's history is unchanged. No stored history holds the system prompt. |
| `ConversationMemory.ChatService.constructor` | a2a/cheerup_agent/src/cheerup_agent/cheerup_llm.py:28-30 | the table starts empty and keeps the prompt it was given |
| `ConversationMemory.ChatService.History` | a2a/cheerup_agent/src/cheerup_agent/cheerup_llm.py:42 | a registered id reads as its stored history. An id never seen reads as the empty list that the `defaultdict` would create. |
| `ConversationMemory.ModelInput` | a2a/cheerup_agent/src/cheerup_agent/cheerup_llm.py:45 | the model is sent the system prompt first, then the whole history, in order, with nothing else |
| `ConversationMemory.Conversation` | a2a/recipe_agent/src/recipe_agent/recipe_llm.py:29-51 | a series of turns keeps the starting history as a prefix and stores at least one entry per message. The first new entry is the first user message. With no messages, the history is unchanged. |
| `ConversationMemory.Turn` | a2a/trivia_agent/src/trivia_agent/trivia_agent_llm.py:43-59 | the prior history is kept as a prefix, followed by the user entry. The model is asked on exactly system prompt ++ prior history ++ user entry. A reply exists iff the model returned a first choice with content, and the reply is that content. On success the history grows by user then assistant entry, holding the returned text. When the call raises or returns no choice, only the user entry stays. A null content is stored as an assistant entry and the turn fails. |
| `ConversationMemory.TurnAddsUserMessage` | a2a/trivia_agent/src/trivia_agent/trivia_agent_llm.py:44 | a turn adds exactly its own user message to the user side of the history, whatever the model does |
| `ConversationMemory.ConversationAppendOnly` | a2a/recipe_agent/src/recipe_agent/recipe_llm.py:24-51 | over any number of turns the history only grows: the start is kept, n turns add between n and 2n entries in total, and the system prompt is never stored. The per-turn bound of one or two entries is `Turn`'s. |
| `ConversationMemory.ConversationKeepsUserMessages` | a2a/recipe_agent/src/recipe_agent/recipe_llm.py:38-39 | after any number of turns the user entries are exactly the messages sent, in order |
| `CheerupLlm.NewConversations` | a2a/cheerup_agent/src/cheerup_agent/cheerup_llm.py:10-30 | the cheerup table is a fresh object of its own, empty, with the cheerup prompt |
| `TriviaAgentLlm.NewConversations` | a2a/trivia_agent/src/trivia_agent/trivia_agent_llm.py:10-31 | the trivia table is a fresh object of its own, empty, with the trivia prompt |
| `RecipeLlm.NewConversations` | a2a/recipe_agent/src/recipe_agent/recipe_llm.py:10-26 | the recipe table is a fresh object of its own, empty, with the recipe prompt |
| `WeatherGraph.AgentState.constructor` | a2a/weather_service/src/weather_service/graph.py:13-14 | a state holds the input messages and `final_answer` is `""` |
| `WeatherGraph.AgentState.Assistant` | a2a/weather_service/src/weather_service/graph.py:46-56 | the model is asked on `[sys_msg] + messages`. If it raises, the state is unchanged. Otherwise exactly the reply is appended, and `final_answer` takes the reply's content iff the reply is an AI message without tool calls, else keeps its value. The span is `gen_ai.chat` with its two attributes. |
| `WeatherGraph.AssistantUpdate` | a2a/weather_service/src/weather_service/graph.py:53-55 | the reply is appended after the kept messages. The final answer becomes the reply's content iff the reply is an AI message without tool calls; otherwise it keeps its value. |
| `WeatherGraph.NextNode` | a2a/weather_service/src/weather_service/graph.py:81-86 | START and `tools` lead to `assistant`. `assistant` leads to `tools` iff the last message is an AI message with tool calls, and to the end otherwise. No edge leads back to START. |
| `WeatherGraph.Run` | a2a/weather_service/src/weather_service/graph.py:78-89 | a finished run stands at the end node and has only appended messages. A state already at the end is returned as it is. A run that is not at the end and has no steps left fails with the recursion limit. When a node raises, the run fails with that step's `NodeRaised` error. A run that moved ends on the model's own reply: its last message is what the model replied when asked on `sys_msg` and the messages before it. |
| `WeatherGraph.Initial` | a2a/weather_service/src/weather_service/graph.py:81 | a run enters at `assistant` with the input messages and an empty final answer |
| `WeatherGraph.Step` | a2a/weather_service/src/weather_service/graph.py:46-86 | messages are only appended. A `tools` step succeeds iff the tool node returns results. Control then returns to `assistant` with exactly the tool node's output appended and the final answer unchanged. An `assistant` step succeeds iff the model replies. It appends exactly the reply, then goes to `tools` iff the reply has tool calls and to the end otherwise. Its final answer follows `AssistantUpdate`'s rule: the reply's content for an AI message without tool calls, else the old value. A raising model or tool node fails the step with `NodeRaised` carrying that node's error. |
| `WeatherGraph.InitialRouted` | a2a/weather_service/src/weather_service/graph.py:81 | the entry state satisfies the routing invariant |
| `WeatherGraph.StepRouted` | a2a/weather_service/src/weather_service/graph.py:52-55 | every step keeps the invariant: `tools` runs only when the last message asks for tools, and the end is reached only after a message asking for none whose AI content is the final answer |
| `WeatherGraph.RunEndsWithAnswer` | a2a/weather_service/src/weather_service/graph.py:52-55 | any finished run from an invariant state ends at the end node. It keeps the starting messages, and adds at least one when it does not start at the end. Its last message asks for no tool, and when that message is an AI message the final answer is its content. |
| `WeatherGraph.GraphAnswers` | a2a/weather_service/src/weather_service/graph.py:78-89 | a finished run of the graph from its entry state ends with the final answer equal to the content of the closing AI reply |
| `WeatherGraph.ToolsSpanNamesPendingCalls` | a2a/weather_service/src/weather_service/graph.py:65-70 | whenever the graph reaches `tools`, the span lists exactly the tool calls of the reply just appended, so its name is never the bare `gen_ai.tool` |
| `WeatherGraph.WeatherInNewYork` | a2a/weather_service/src/weather_service/graph.py:46-86 | a concrete run (tool call, tool result, text answer) ends with those four messages and the text as final answer |
| `TracedToolNode.LastToolCallIndex` | a2a/weather_service/src/weather_service/graph.py:66-69 | the scan stops at an AI message with tool calls that no later message matches. When it finds none, no message has tool calls. |
| `TracedToolNode.CallNames` | a2a/weather_service/src/weather_service/graph.py:68 | one name per tool call, in the calls' order |
| `TracedToolNode.ExtractToolNames` | a2a/weather_service/src/weather_service/graph.py:64-69 | the backward loop with `break` yields exactly the names of the most recent tool-calling AI message, or none |
| `TracedToolNode.PendingToolNamesIgnoreOlder` | a2a/weather_service/src/weather_service/graph.py:66-69 | once a newer message calls tools, the older messages do not affect the names |
| `TracedToolNode.PendingToolNames` | a2a/weather_service/src/weather_service/graph.py:64-69 | there are no names iff no message is an AI message with tool calls. Otherwise they are the names of the calls of such a message, and no later message has tool calls. |
| `TracedToolNode.Join` | a2a/weather_service/src/weather_service/graph.py:73 | `sep.join(parts)`: empty for no parts. It starts with the first part, followed by the separator when there are more parts. |
| `TracedToolNode.JoinEndsWithLast` | a2a/weather_service/src/weather_service/graph.py:73 | the joined string ends with the last part |
| `TracedToolNode.ToolNameAttribute` | a2a/weather_service/src/weather_service/graph.py:73 | the `gen_ai.tool.name` attribute is empty for no names. It starts with the first name, followed by `", "` when there are more names. |
| `TracedToolNode.SpanName` | a2a/weather_service/src/weather_service/graph.py:70 | the name is the bare `gen_ai.tool` iff there are no names. Otherwise it is `gen_ai.tool (`, then the joined names, then `)`. |
| `TracedToolNode.ToolSpan` | a2a/weather_service/src/weather_service/graph.py:71-74 | the span's attributes are exactly `gen_ai.operation.name` = `execute_tool` and `gen_ai.tool.name` = the joined names. Its name is bare iff there are no names. Otherwise the name wraps that attribute in `gen_ai.tool (` and `)`. |
| `TracedToolNode.FindSeparator` | a2a/weather_service/src/weather_service/graph.py:73 | no counterpart in the source; a helper for the inverse of the join at line 73. It finds the first `", "` in a string, and none occurs before it. |
| `TracedToolNode.SplitToolNames` | a2a/weather_service/src/weather_service/graph.py:73 | no counterpart in the source; the inverse of the join at line 73. Reading an attribute back gives at least one name. |
| `TracedToolNode.ToolNameAttributeRoundTrip` | a2a/weather_service/src/weather_service/graph.py:73 | when no name holds a comma, splitting the `gen_ai.tool.name` attribute at `", "` gives back exactly the names, in order. The condition "no comma" is deliberately stronger than needed: it is enough that no name contains `", "`. |
| `TracedToolNode.SpanNameInjective` | a2a/weather_service/src/weather_service/graph.py:70 | when no name holds a comma, different tool lists get different span names. As for the round trip, "no comma" is deliberately stronger than "no `", "`". |
| `TracedToolNode.Invoke` | a2a/weather_service/src/weather_service/graph.py:61-75 | the result is exactly the parent tool node's result. A missing message list reads as empty. The span's name and `gen_ai.tool.name` attribute are built from the pending names, with the operation `execute_tool`. The name is the bare `gen_ai.tool` iff there are no names. |

## Left out

- Configuration, the `AsyncOpenAI`/`ChatOpenAI` clients, `bind_tools`, the MCP client and its transport, and the HTTP calls are not modelled. The model and the tool node are oracle parameters.
- `async`/`await` and concurrent access to `_conversations` are left out: turns are sequential.
- Logging is left out, including the `[:200]` truncation. Only one effect of the log line is kept: it raises when the reply content is null.
- The tracer and the span lifecycle are left out, apart from span names and attributes.
- `tools_condition` is library code that is not part of this model. `NextNode` assumes its rule: go to `tools` exactly when the last message is an AI message with tool calls.
- The library's message reducer is also assumed: the tool node's output messages are appended to the state.
- `AgentState.Assistant` and `Step`: the `assistant` node appends to the state's list in place and returns the whole state. The library then merges that list back through its reducer. "Exactly the reply is appended" relies on that reducer merging by message id without duplicating the messages already present. The reducer is library code that is not part of this model.
- `TracedToolNode.Invoke`: `TracedToolNode` overrides only the synchronous `invoke` (graph.py:61), and the model covers that path. When the graph runs through `astream`/`ainvoke`, the library may call the asynchronous path, which this override does not wrap, so the span naming may not run.
- `Run`'s `fuel` stands for the library's recursion limit. The library's default value and exact counting are not modelled.
- `AgentState.constructor`: `final_answer` starts as the declared default `""`. Whether the state dictionary holds that key before the first final reply is up to the graph library, which is not modelled.
- Message content is modelled as text. Multi-part (list) content of AI messages is not modelled.
- The A2A executors (`agent.py`) are not part of this model. They turn a raised turn into a fixed apology and a failed task.

/** The weather service's tool-calling graph: an `assistant` node that asks
    the tool-bound model and records a final answer, a `tools` node that runs
    the requested tools, and the edges START -> assistant, assistant -> tools
    or end (the library's `tools_condition`), tools -> assistant. */
module WeatherGraph {
  import opened Wrappers
  import opened WeatherMessages
  import opened TracedToolNode

  /** `sys_msg`, sent in front of the conversation on every model call. */
  const SysMsg: Message := SystemMessage(
    "You are a helpful assistant tasked with providing weather information. "
    + "You must use the provided tools to complete your task.")

  /** The span around each model call. */
  const ChatSpan: Span := Span("gen_ai.chat", map[
    "gen_ai.operation.name" := "chat",
    "gen_ai.system" := "openai"])

  /** What `llm_with_tools.invoke` does: it raises, or replies with a message. */
  datatype Invocation = Raised(error: string) | Replied(reply: Message)

  /** The tool-bound chat model, an oracle. */
  type ChatModel = seq<Message> -> Invocation

  /** The fields of `ExtendedMessagesState` the nodes touch. */
  datatype AssistantState = AssistantState(messages: seq<Message>, finalAnswer: string)

  /** The assistant node's update once the model has replied: the reply goes
      at the end, and it becomes the final answer only when it is an AI
      message asking for no tool. */
  function AssistantUpdate(messages: seq<Message>, finalAnswer: string, reply: Message): (u: AssistantState)
    ensures |u.messages| == |messages| + 1 && u.messages[..|messages|] == messages
    ensures Last(u.messages) == reply
    ensures IsFinalReply(reply) ==> u.finalAnswer == reply.content
    ensures !IsFinalReply(reply) ==> u.finalAnswer == finalAnswer
  {
    AssistantState(messages + [reply], if IsFinalReply(reply) then reply.content else finalAnswer)
  }

  /** The graph state as the `assistant` node mutates it in place. */
  class AgentState {
    var messages: seq<Message>
    var finalAnswer: string

    /** A state holding the input messages; `final_answer` has its declared default. */
    constructor (input: seq<Message>)
      ensures messages == input && finalAnswer == ""
    {
      messages := input;
      finalAnswer := "";
    }

    /** The `assistant` node. If the model raises, the state is left as it
        was and the error propagates; otherwise exactly the reply is appended,
        and `final_answer` takes its content if and only if it is an AI
        message without tool calls. */
    method Assistant(llm: ChatModel) returns (raised: Option<string>, span: Span)
      modifies this
      ensures span == ChatSpan
      ensures llm([SysMsg] + old(messages)).Raised? ==>
        raised == Some(llm([SysMsg] + old(messages)).error)
        && messages == old(messages) && finalAnswer == old(finalAnswer)
      ensures llm([SysMsg] + old(messages)).Replied? ==>
        var reply := llm([SysMsg] + old(messages)).reply;
        && raised == None
        && AssistantState(messages, finalAnswer) == AssistantUpdate(old(messages), old(finalAnswer), reply)
        && messages == old(messages) + [reply]
        && (IsFinalReply(reply) ==> finalAnswer == reply.content)
        && (!IsFinalReply(reply) ==> finalAnswer == old(finalAnswer))
    {
      span := ChatSpan;
      var result := llm([SysMsg] + messages);
      match result {
        case Raised(error) =>
          raised := Some(error);
        case Replied(reply) =>
          raised := None;
          messages := messages + [reply];
          if reply.AIMessage? && |reply.toolCalls| == 0 {
            finalAnswer := reply.content;
          }
      }
    }
  }

  datatype Node = Start | AssistantNode | ToolsNode | End

  /** The graph's edges. START and `tools` lead to `assistant`. After
      `assistant`, the library's `tools_condition` decides; it is not part of
      this model and is taken to route to `tools` exactly when the last
      message is an AI message with tool calls, and to the end otherwise. */
  function NextNode(node: Node, messages: seq<Message>): (next: Node)
    ensures next != Start
    ensures node == Start || node == ToolsNode ==> next == AssistantNode
    ensures node == AssistantNode ==>
      (next == ToolsNode <==> |messages| > 0 && HasToolCalls(Last(messages)))
      && (next == ToolsNode || next == End)
    ensures node == End ==> next == End
  {
    match node
    case Start => AssistantNode
    case AssistantNode => if |messages| > 0 && HasToolCalls(Last(messages)) then ToolsNode else End
    case ToolsNode => AssistantNode
    case End => End
  }

  /** Where the graph is, and its state. */
  datatype Config = Config(node: Node, messages: seq<Message>, finalAnswer: string)

  /** Why a run stops without reaching the end: a node raised, or the
      library's step limit was hit. */
  datatype GraphError = NodeRaised(error: string) | RecursionLimit

  /** The state the graph enters with: the input messages, at `assistant`. */
  function Initial(input: seq<Message>): (c: Config)
    ensures c.node == AssistantNode && c.messages == input && c.finalAnswer == ""
  {
    Config(NextNode(Start, input), input, "")
  }

  /** One node execution and the edge taken after it. The tool node's
      output messages are appended to the state (the library's message
      reducer, taken as given). */
  function Step(c: Config, llm: ChatModel, tools: ToolExecutor): (r: Result<Config, GraphError>)
    requires c.node == AssistantNode || c.node == ToolsNode
    // messages are only ever appended
    ensures r.Success? ==> c.messages <= r.value.messages
    ensures r.Success? ==> r.value.node != Start
    // after `tools`, control always returns to `assistant`
    ensures c.node == ToolsNode ==>
      (r.Success? <==> tools(ToolNodeInput(Some(c.messages))).ToolResults?)
    ensures c.node == ToolsNode && r.Success? ==>
      && r.value.node == AssistantNode && r.value.finalAnswer == c.finalAnswer
      && r.value.messages == c.messages + tools(ToolNodeInput(Some(c.messages))).messages
    // `assistant` appends exactly the reply and then goes to `tools` or ends
    ensures c.node == AssistantNode ==>
      (r.Success? <==> llm([SysMsg] + c.messages).Replied?)
    // a raising node fails the step with that node's error
    ensures c.node == AssistantNode && llm([SysMsg] + c.messages).Raised? ==>
      r == Failure(NodeRaised(llm([SysMsg] + c.messages).error))
    ensures c.node == ToolsNode && tools(ToolNodeInput(Some(c.messages))).ToolsRaised? ==>
      r == Failure(NodeRaised(tools(ToolNodeInput(Some(c.messages))).error))
    ensures c.node == AssistantNode && r.Success? ==>
      && r.value.messages == c.messages + [llm([SysMsg] + c.messages).reply]
      && (r.value.node == ToolsNode <==> HasToolCalls(Last(r.value.messages)))
      && (r.value.node == End <==> !HasToolCalls(Last(r.value.messages)))
      && r.value.finalAnswer ==
           AssistantUpdate(c.messages, c.finalAnswer, llm([SysMsg] + c.messages).reply).finalAnswer
  {
    match c.node
    case AssistantNode =>
      (match llm([SysMsg] + c.messages)
       case Raised(error) => Failure(NodeRaised(error))
       case Replied(reply) =>
         var u := AssistantUpdate(c.messages, c.finalAnswer, reply);
         Success(Config(NextNode(AssistantNode, u.messages), u.messages, u.finalAnswer)))
    case ToolsNode =>
      (match tools(ToolNodeInput(Some(c.messages)))
       case ToolsRaised(error) => Failure(NodeRaised(error))
       case ToolResults(output) => Success(Config(NextNode(ToolsNode, c.messages), c.messages + output, c.finalAnswer)))
  }

  /** Running the graph for at most `fuel` node executions. */
  function Run(c: Config, llm: ChatModel, tools: ToolExecutor, fuel: nat): (r: Result<Config, GraphError>)
    requires c.node != Start
    // a run that finishes has reached the end and only appended messages
    ensures r.Success? ==> r.value.node == End && c.messages <= r.value.messages
    ensures c.node == End ==> r == Success(c)
    ensures c.node != End && fuel == 0 ==> r == Failure(RecursionLimit)
    // a raising node ends the run with that node's error
    ensures c.node != End && fuel > 0 && Step(c, llm, tools).Failure? ==> r == Step(c, llm, tools)
    // a run that moved ends on the model's own reply to the messages before it
    ensures r.Success? && c.node != End ==>
      && |r.value.messages| > 0
      && llm([SysMsg] + r.value.messages[..|r.value.messages| - 1]) == Replied(Last(r.value.messages))
    decreases fuel
  {
    if c.node == End then Success(c)
    else if fuel == 0 then Failure(RecursionLimit)
    else
      match Step(c, llm, tools)
      case Failure(error) => Failure(error)
      case Success(next) =>
        assert next.node == End ==> next.messages[..|next.messages| - 1] == c.messages;
        Run(next, llm, tools, fuel - 1)
  }

  /** What the routing guarantees about a reachable state: `tools` runs only
      on pending tool calls, and the end is reached only after an answer. */
  ghost predicate Routed(c: Config) {
    && c.node != Start
    && (c.node == ToolsNode ==> |c.messages| > 0 && HasToolCalls(Last(c.messages)))
    && (c.node == End ==>
          && |c.messages| > 0 && !HasToolCalls(Last(c.messages))
          && (Last(c.messages).AIMessage? ==> c.finalAnswer == Last(c.messages).content))
  }

  lemma InitialRouted(input: seq<Message>)
    ensures Routed(Initial(input))
  {
  }

  /** Every step keeps the routing guarantees. */
  lemma StepRouted(c: Config, llm: ChatModel, tools: ToolExecutor)
    requires Routed(c) && c.node != End
    requires Step(c, llm, tools).Success?
    ensures Routed(Step(c, llm, tools).value)
  {
  }

  /** A run that finishes ends after an AI message asking for no tool (or
      a non-AI reply), with that AI message's content as the final answer,
      and keeps every message it started with. */
  lemma {:induction false} RunEndsWithAnswer(c: Config, llm: ChatModel, tools: ToolExecutor, fuel: nat)
    requires Routed(c)
    requires Run(c, llm, tools, fuel).Success?
    ensures var f := Run(c, llm, tools, fuel).value;
      && f.node == End
      && c.messages <= f.messages
      && (c.node != End ==> |f.messages| > |c.messages|)
      && |f.messages| > 0 && !HasToolCalls(Last(f.messages))
      && (Last(f.messages).AIMessage? ==> f.finalAnswer == Last(f.messages).content)
    decreases fuel
  {
    if c.node != End {
      var next := Step(c, llm, tools).value;
      StepRouted(c, llm, tools);
      RunEndsWithAnswer(next, llm, tools, fuel - 1);
    }
  }

  /** From its entry state, a finished run of the graph has a final answer:
      the content of the AI message it ended on. */
  lemma GraphAnswers(input: seq<Message>, llm: ChatModel, tools: ToolExecutor, fuel: nat)
    requires Run(Initial(input), llm, tools, fuel).Success?
    ensures var f := Run(Initial(input), llm, tools, fuel).value;
      && f.node == End && input <= f.messages && |f.messages| > |input|
      && (IsFinalReply(Last(f.messages)) ==> f.finalAnswer == Last(f.messages).content)
  {
    InitialRouted(input);
    RunEndsWithAnswer(Initial(input), llm, tools, fuel);
  }

  /** Whenever the `tools` node is reached, its span names exactly the
      tools of the message just appended by `assistant`. */
  lemma ToolsSpanNamesPendingCalls(c: Config)
    requires Routed(c) && c.node == ToolsNode
    ensures PendingToolNames(c.messages) == CallNames(Last(c.messages).toolCalls)
    ensures SpanName(PendingToolNames(c.messages)) != "gen_ai.tool"
  {
  }

  const Question: Message := HumanMessage("What's the weather in NY?")
  const WeatherCall: Message := AIMessage("", [ToolCall("call_1", "get_weather", map["city" := "NY"])])
  const WeatherResult: Message := ToolMessage("72F, sunny", "call_1")
  const WeatherAnswer: Message := AIMessage("It's 72°F and sunny in NY.", [])

  /** A model that asks for the weather tool until it has seen a tool result. */
  function WeatherModel(sent: seq<Message>): Invocation {
    if |sent| > 0 && Last(sent).ToolMessage? then Replied(WeatherAnswer) else Replied(WeatherCall)
  }

  /** A tool node that always reports the same weather. */
  function WeatherTools(input: ToolNodeInput): ToolNodeOutput {
    ToolResults([WeatherResult])
  }

  /** A worked run: the model first asks for `get_weather`, the tool answers,
      and the model then answers in text. The run ends after three node
      executions with four messages and that text as the final answer. */
  lemma WeatherInNewYork()
    ensures Run(Initial([Question]), WeatherModel, WeatherTools, 25)
      == Success(Config(End, [Question, WeatherCall, WeatherResult, WeatherAnswer], WeatherAnswer.content))
  {
    var c0 := Initial([Question]);
    var c1 := Config(ToolsNode, [Question, WeatherCall], "");
    var c2 := Config(AssistantNode, [Question, WeatherCall, WeatherResult], "");
    var c3 := Config(End, [Question, WeatherCall, WeatherResult, WeatherAnswer], WeatherAnswer.content);
    assert Last([SysMsg] + c0.messages) == Question;
    assert c0.messages + [WeatherCall] == c1.messages;
    assert Step(c0, WeatherModel, WeatherTools) == Success(c1);
    assert c1.messages + [WeatherResult] == c2.messages;
    assert Step(c1, WeatherModel, WeatherTools) == Success(c2);
    assert Last([SysMsg] + c2.messages) == WeatherResult;
    assert c2.messages + [WeatherAnswer] == c3.messages;
    assert Step(c2, WeatherModel, WeatherTools) == Success(c3);
    assert Run(c2, WeatherModel, WeatherTools, 23) == Run(c3, WeatherModel, WeatherTools, 22);
  }
}

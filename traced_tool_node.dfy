/** The weather graph's `tools` node: it names its trace span after the tools
    the most recent tool-calling AI message asked for, then runs the library's
    tool node unchanged. */
module TracedToolNode {
  import opened Wrappers
  import opened WeatherMessages

  /** Where the backwards scan stops: the most recent AI message that carries
      tool calls, if there is one. */
  function LastToolCallIndex(messages: seq<Message>): (r: Option<nat>)
    ensures r.Some? ==> r.value < |messages| && HasToolCalls(messages[r.value])
    ensures r.Some? ==> forall j :: r.value < j < |messages| ==> !HasToolCalls(messages[j])
    ensures r.None? ==> forall j :: 0 <= j < |messages| ==> !HasToolCalls(messages[j])
  {
    if |messages| == 0 then None
    else if HasToolCalls(Last(messages)) then Some(|messages| - 1)
    else LastToolCallIndex(messages[..|messages| - 1])
  }

  /** `[tc["name"] for tc in msg.tool_calls]`. */
  function CallNames(calls: seq<ToolCall>): (names: seq<string>)
    ensures |names| == |calls|
    ensures forall i :: 0 <= i < |calls| ==> names[i] == calls[i].name
  {
    seq(|calls|, i requires 0 <= i < |calls| => calls[i].name)
  }

  /** The tool names the node is about to run: those of the most recent AI
      message with tool calls, in that message's order; none if there is no
      such message. */
  function PendingToolNames(messages: seq<Message>): (names: seq<string>)
    ensures names == [] <==> forall j :: 0 <= j < |messages| ==> !HasToolCalls(messages[j])
    ensures names != [] ==>
      exists k :: 0 <= k < |messages| && HasToolCalls(messages[k])
        && names == CallNames(messages[k].toolCalls)
        && forall j :: k < j < |messages| ==> !HasToolCalls(messages[j])
  {
    match LastToolCallIndex(messages)
    case None => []
    case Some(k) => CallNames(messages[k].toolCalls)
  }

  /** The scan of `TracedToolNode.invoke`: walk the messages from the newest,
      and take the names of the first AI message with tool calls met. */
  method ExtractToolNames(messages: seq<Message>) returns (toolNames: seq<string>)
    ensures toolNames == PendingToolNames(messages)
  {
    toolNames := [];
    var i := |messages|;
    while i > 0
      invariant 0 <= i <= |messages|
      invariant forall j :: i <= j < |messages| ==> !HasToolCalls(messages[j])
      invariant toolNames == []
    {
      i := i - 1;
      var msg := messages[i];
      if msg.AIMessage? && |msg.toolCalls| > 0 {
        toolNames := CallNames(msg.toolCalls);
        break;
      }
    }
  }

  /** A newer tool-calling message hides every older one. */
  lemma PendingToolNamesIgnoreOlder(older: seq<Message>, newer: seq<Message>, j: nat)
    requires j < |newer| && HasToolCalls(newer[j])
    ensures PendingToolNames(older + newer) == PendingToolNames(newer)
  {
    var all := older + newer;
    var r := LastToolCallIndex(all);
    assert HasToolCalls(all[|older| + j]);
    var k := LastToolCallIndex(newer).value;
    assert all[|older| + k] == newer[k];
    assert r == Some(|older| + k);
  }

  /** `sep.join(parts)`: it starts with the first part, followed by the
      separator when there are more. */
  function Join(sep: string, parts: seq<string>): (s: string)
    ensures |parts| == 0 ==> s == ""
    ensures |parts| > 0 ==> parts[0] <= s
    ensures |parts| > 1 ==> |parts[0]| + |sep| <= |s| && s[|parts[0]|..|parts[0]| + |sep|] == sep
    decreases |parts|
  {
    if |parts| == 0 then ""
    else if |parts| == 1 then parts[0]
    else parts[0] + sep + Join(sep, parts[1..])
  }

  /** The joined string ends with the last part. */
  lemma {:induction false} JoinEndsWithLast(sep: string, parts: seq<string>)
    requires |parts| > 0
    ensures var s, last := Join(sep, parts), parts[|parts| - 1];
      |last| <= |s| && s[|s| - |last|..] == last
    decreases |parts|
  {
    if |parts| > 1 {
      var rest := Join(sep, parts[1..]);
      JoinEndsWithLast(sep, parts[1..]);
      assert parts[1..][|parts[1..]| - 1] == parts[|parts| - 1];
      var s := parts[0] + sep + rest;
      assert s[|s| - |parts[|parts| - 1]|..] == rest[|rest| - |parts[|parts| - 1]|..];
    }
  }

  /** The `gen_ai.tool.name` attribute: the names joined by ", ". */
  function ToolNameAttribute(toolNames: seq<string>): (attribute: string)
    ensures toolNames == [] ==> attribute == ""
    ensures |toolNames| > 0 ==> toolNames[0] <= attribute
    ensures |toolNames| > 1 ==>
      |toolNames[0]| + 2 <= |attribute| && attribute[|toolNames[0]|..|toolNames[0]| + 2] == ", "
  {
    Join(", ", toolNames)
  }

  /** The span name: the names in parentheses after "gen_ai.tool", or just
      "gen_ai.tool" when there are none. */
  function SpanName(toolNames: seq<string>): (name: string)
    ensures name == "gen_ai.tool" <==> toolNames == []
    ensures |toolNames| > 0 ==>
      && |name| == |"gen_ai.tool ("| + |ToolNameAttribute(toolNames)| + 1
      && name[..|"gen_ai.tool ("|] == "gen_ai.tool ("
      && name[|"gen_ai.tool ("|..|name| - 1] == ToolNameAttribute(toolNames)
      && name[|name| - 1] == ')'
  {
    if |toolNames| > 0 then "gen_ai.tool (" + ToolNameAttribute(toolNames) + ")" else "gen_ai.tool"
  }

  function ToolSpan(toolNames: seq<string>): (span: Span)
    ensures span.attributes.Keys == {"gen_ai.operation.name", "gen_ai.tool.name"}
    ensures span.attributes["gen_ai.operation.name"] == "execute_tool"
    ensures span.attributes["gen_ai.tool.name"] == ToolNameAttribute(toolNames)
    ensures span.name == "gen_ai.tool" <==> toolNames == []
    ensures |toolNames| > 0 ==>
      span.name == "gen_ai.tool (" + span.attributes["gen_ai.tool.name"] + ")"
  {
    Span(SpanName(toolNames), map[
      "gen_ai.operation.name" := "execute_tool",
      "gen_ai.tool.name" := ToolNameAttribute(toolNames)])
  }

  /** The first ", " in a string, or its length when there is none. */
  function FindSeparator(s: string): (i: nat)
    ensures i <= |s|
    ensures i < |s| ==> i + 1 < |s| && s[i] == ',' && s[i + 1] == ' '
    ensures forall j :: 0 <= j < i && j + 1 < |s| ==> !(s[j] == ',' && s[j + 1] == ' ')
  {
    if |s| < 2 then |s|
    else if s[0] == ',' && s[1] == ' ' then 0
    else 1 + FindSeparator(s[1..])
  }

  /** Reads the tool-name attribute back into names: splits at every ", ". */
  function SplitToolNames(s: string): (names: seq<string>)
    ensures |names| > 0
    decreases |s|
  {
    var i := FindSeparator(s);
    if i == |s| then [s] else [s[..i]] + SplitToolNames(s[i + 2..])
  }

  ghost predicate NoComma(toolNames: seq<string>) {
    forall k :: 0 <= k < |toolNames| ==> ',' !in toolNames[k]
  }

  /** The first separator after a comma-free name is the one that follows it. */
  lemma {:induction false} SeparatorAfterName(x: string, rest: string)
    requires ',' !in x
    ensures FindSeparator(x + ", " + rest) == |x|
    decreases |x|
  {
    var s := x + ", " + rest;
    if |x| > 0 {
      assert s[1..] == x[1..] + ", " + rest;
      assert s[0] == x[0];
      SeparatorAfterName(x[1..], rest);
    }
  }

  /** Splitting after a comma-free name cuts that name off. */
  lemma SplitAfterName(x: string, rest: string)
    requires ',' !in x
    ensures SplitToolNames(x + ", " + rest) == [x] + SplitToolNames(rest)
  {
    var s := x + ", " + rest;
    SeparatorAfterName(x, rest);
    assert s[..|x|] == x;
    assert s[|x| + 2..] == rest;
  }

  /** The attribute lists the names: when no name holds a comma, splitting
      it gives back exactly the names, in order. */
  lemma {:induction false} ToolNameAttributeRoundTrip(toolNames: seq<string>)
    requires |toolNames| > 0 && NoComma(toolNames)
    ensures SplitToolNames(ToolNameAttribute(toolNames)) == toolNames
    decreases |toolNames|
  {
    if |toolNames| == 1 {
      SeparatorAfterLast(toolNames[0]);
    } else {
      var x, tail := toolNames[0], toolNames[1..];
      assert NoComma(tail) by {
        forall k | 0 <= k < |tail| ensures ',' !in tail[k] {
          assert tail[k] == toolNames[k + 1];
        }
      }
      ToolNameAttributeRoundTrip(tail);
      var rest := ToolNameAttribute(tail);
      SplitAfterName(x, rest);
      calc {
        SplitToolNames(ToolNameAttribute(toolNames));
        { JoinCons(", ", toolNames); }
        SplitToolNames(x + ", " + rest);
        [x] + tail;
        toolNames;
      }
    }
  }

  /** Joining two or more parts puts the separator after the first one. */
  lemma JoinCons(sep: string, parts: seq<string>)
    requires |parts| > 1
    ensures Join(sep, parts) == parts[0] + sep + Join(sep, parts[1..])
  {
  }

  /** A comma-free name holds no separator. */
  lemma SeparatorAfterLast(x: string)
    requires ',' !in x
    ensures FindSeparator(x) == |x|
  {
  }

  /** When no name holds a comma, the span name tells the tool lists apart. */
  lemma SpanNameInjective(a: seq<string>, b: seq<string>)
    requires NoComma(a) && NoComma(b)
    requires SpanName(a) == SpanName(b)
    ensures a == b
  {
    if |a| > 0 && |b| > 0 {
      var s := SpanName(a);
      var p := "gen_ai.tool (";
      assert ToolNameAttribute(a) == s[|p|..|s| - 1];
      assert ToolNameAttribute(b) == s[|p|..|s| - 1];
      ToolNameAttributeRoundTrip(a);
      ToolNameAttributeRoundTrip(b);
    }
  }

  /** The node's input state; `input.get("messages", [])` reads a missing list as empty. */
  datatype ToolNodeInput = ToolNodeInput(messages: Option<seq<Message>>)

  /** What the library's tool node returns: the tool messages it produced, or it raises. */
  datatype ToolNodeOutput = ToolsRaised(error: string) | ToolResults(messages: seq<Message>)

  /** The library's `ToolNode.invoke`, an oracle. */
  type ToolExecutor = ToolNodeInput -> ToolNodeOutput

  /** `TracedToolNode.invoke`: the span it opens, and the parent's result,
      which the span does not alter. */
  method Invoke(input: ToolNodeInput, parent: ToolExecutor) returns (output: ToolNodeOutput, span: Span)
    ensures output == parent(input)
    ensures span == ToolSpan(PendingToolNames(input.messages.GetOr([])))
    ensures span.name == "gen_ai.tool" <==> PendingToolNames(input.messages.GetOr([])) == []
  {
    var messages := input.messages.GetOr([]);
    var toolNames := ExtractToolNames(messages);
    var spanName := if |toolNames| > 0 then "gen_ai.tool (" + Join(", ", toolNames) + ")" else "gen_ai.tool";
    span := Span(spanName, map[
      "gen_ai.operation.name" := "execute_tool",
      "gen_ai.tool.name" := Join(", ", toolNames)]);
    output := parent(input);
  }
}

/** The tool bridge of the OpenAI client (2_MCP_OpenAI_Integration/client.py): MCP tools
    are offered to the chat model as function descriptors, and the model's tool calls
    are run against the MCP session and appended to the conversation.

    The chat-completions service, the MCP session and `json.loads` are not modelled;
    they are the parameters `complete`, `session` and `loads`. `session` is handed the
    whole list of calls made so far, ending with the current one, so any server that
    answers according to the calls it has seen can be described. */
module OpenAIClient {
  import opened Wrappers
  import opened Json

  // ---------------------------------------------------------------------------
  // get_mcp_tools

  /** An MCP tool as the session's `list_tools` reports it. */
  datatype Tool = Tool(name: string, description: Option<string>, inputSchema: Json)

  /** The `"function"` object of an OpenAI tool descriptor. */
  datatype FunctionSpec = FunctionSpec(name: string, description: Option<string>, parameters: Json)

  /** An OpenAI tool descriptor `{"type": kind, "function": spec}`. */
  datatype ToolDescriptor = ToolDescriptor(kind: string, spec: FunctionSpec)

  function Describe(t: Tool): ToolDescriptor
  {
    ToolDescriptor("function", FunctionSpec(t.name, t.description, t.inputSchema))
  }

  /** The list comprehension of `get_mcp_tools`: one descriptor per tool, in order. */
  function GetMcpTools(tools: seq<Tool>): (ds: seq<ToolDescriptor>)
    ensures |ds| == |tools|
    ensures forall i :: 0 <= i < |tools| ==>
      && ds[i].kind == "function"
      && ds[i].spec.name == tools[i].name
      && ds[i].spec.description == tools[i].description
      && ds[i].spec.parameters == tools[i].inputSchema
  {
    if |tools| == 0 then [] else [Describe(tools[0])] + GetMcpTools(tools[1..])
  }

  /** The MCP tool a function descriptor was made from. */
  function AsTool(d: ToolDescriptor): Option<Tool>
  {
    if d.kind == "function" then Some(Tool(d.spec.name, d.spec.description, d.spec.parameters))
    else None
  }

  /** The descriptors lose nothing: each gives back its tool. */
  lemma GetMcpToolsRoundTrip(tools: seq<Tool>)
    ensures forall i :: 0 <= i < |tools| ==> AsTool(GetMcpTools(tools)[i]) == Some(tools[i])
  {
  }

  /** Descriptors of a concatenation are the concatenation of descriptors. */
  lemma {:induction false} GetMcpToolsAppend(a: seq<Tool>, b: seq<Tool>)
    ensures GetMcpTools(a + b) == GetMcpTools(a) + GetMcpTools(b)
  {
    if |a| > 0 {
      assert (a + b)[1..] == a[1..] + b;
      GetMcpToolsAppend(a[1..], b);
    }
  }

  // ---------------------------------------------------------------------------
  // process_query

  /** `tool_choice`: `"auto"` lets the model call tools, `"none"` forbids it. */
  datatype ToolChoice = Auto | NoTools

  /** One tool call chosen by the model; `arguments` is JSON text. */
  datatype ToolCall = ToolCall(id: string, name: string, arguments: string)

  /** The model's reply message; `toolCalls` is empty when the model called nothing. */
  datatype AssistantMessage = AssistantMessage(content: Option<string>, toolCalls: seq<ToolCall>)

  /** An entry of the conversation sent to the model. */
  datatype Message =
    | UserMessage(content: string)
    | Assistant(message: AssistantMessage)
    | ToolMessage(toolCallId: string, text: string)

  /** The arguments of one `chat.completions.create` call. */
  datatype CompletionRequest =
    CompletionRequest(model: string, messages: seq<Message>, tools: seq<ToolDescriptor>, choice: ToolChoice)

  /** One `session.call_tool(name, arguments=...)`. */
  datatype Invocation = Invocation(name: string, arguments: Json)

  /** A content block of a tool result; only text blocks have a `.text`. */
  datatype Content = TextContent(text: string) | OtherContent(kind: string)

  datatype CallToolResult = CallToolResult(content: seq<Content>, isError: bool)

  /** What `call_tool` did: returned a result, or raised. */
  datatype Reply = Answered(result: CallToolResult) | Raised(message: string)

  /** Why the tool loop stopped early. Each exception in the loop propagates out of
      `process_query`, so the remaining calls are not made. */
  datatype QueryError =
    | ArgumentsNotJson(callId: string)
    | CallRaised(callId: string, message: string)
    | NoTextContent(callId: string)

  /** `result.content[0].text`, when there is such a thing. */
  function ReplyText(r: Reply): Option<string>
  {
    if r.Answered? && |r.result.content| > 0 && r.result.content[0].TextContent? then
      Some(r.result.content[0].text)
    else None
  }

  /** Regrouping a concatenation; the solver needs this step spelled out. */
  lemma Associative<T>(a: seq<T>, b: seq<T>, c: seq<T>)
    ensures a + (b + c) == (a + b) + c
  {
  }

  /** What the tool loop produced: the calls it made, the tool messages it appended,
      and the error it stopped on, if any. */
  datatype LoopOutcome = LoopOutcome(invocations: seq<Invocation>, entries: seq<Message>, error: Option<QueryError>)

  /** The `for tool_call in assistant_msg.tool_calls` loop, from a session that has
      already seen the calls in `history`. */
  function RunToolCalls(calls: seq<ToolCall>, loads: string -> Option<Json>,
                        session: seq<Invocation> -> Reply, history: seq<Invocation>): (r: LoopOutcome)
    // the calls made are a prefix of the listed calls, in order, with their parsed arguments
    ensures |r.entries| <= |r.invocations| <= |calls|
    ensures forall i :: 0 <= i < |r.invocations| ==>
      r.invocations[i].name == calls[i].name && loads(calls[i].arguments) == Some(r.invocations[i].arguments)
    // without an error every call was made and answered
    ensures r.error.None? ==> |r.entries| == |r.invocations| == |calls|
  {
    if |calls| == 0 then LoopOutcome([], [], None)
    else
      var call := calls[0];
      match loads(call.arguments)
      case None => LoopOutcome([], [], Some(ArgumentsNotJson(call.id)))
      case Some(arguments) =>
        var invocation := Invocation(call.name, arguments);
        var reply := session(history + [invocation]);
        if reply.Raised? then LoopOutcome([invocation], [], Some(CallRaised(call.id, reply.message)))
        else if ReplyText(reply).None? then LoopOutcome([invocation], [], Some(NoTextContent(call.id)))
        else
          var others := RunToolCalls(calls[1..], loads, session, history + [invocation]);
          LoopOutcome([invocation] + others.invocations,
                      [ToolMessage(call.id, ReplyText(reply).value)] + others.entries,
                      others.error)
  }

  /** The i-th tool message answers the i-th call with the text of its result, the
      result the session gave after seeing exactly the first i + 1 calls. */
  lemma {:induction false} RunToolCallsEntries(calls: seq<ToolCall>, loads: string -> Option<Json>,
                                               session: seq<Invocation> -> Reply, history: seq<Invocation>)
    ensures var r := RunToolCalls(calls, loads, session, history);
      forall i :: 0 <= i < |r.entries| ==>
        && r.entries[i].ToolMessage?
        && r.entries[i].toolCallId == calls[i].id
        && ReplyText(session(history + r.invocations[..i + 1])) == Some(r.entries[i].text)
  {
    var r := RunToolCalls(calls, loads, session, history);
    if |calls| == 0 || loads(calls[0].arguments).None? {
      assert r.entries == [];
    } else {
      var call := calls[0];
      var invocation := Invocation(call.name, loads(call.arguments).value);
      var reply := session(history + [invocation]);
      if reply.Raised? || ReplyText(reply).None? {
        assert r.entries == [];
      } else {
        var others := RunToolCalls(calls[1..], loads, session, history + [invocation]);
        assert r.invocations == [invocation] + others.invocations;
        assert r.entries == [ToolMessage(call.id, ReplyText(reply).value)] + others.entries;
        RunToolCallsEntries(calls[1..], loads, session, history + [invocation]);
        forall i | 0 <= i < |r.entries|
          ensures r.entries[i].ToolMessage? && r.entries[i].toolCallId == calls[i].id
          ensures ReplyText(session(history + r.invocations[..i + 1])) == Some(r.entries[i].text)
        {
          if i == 0 {
            assert r.invocations[..1] == [invocation];
          } else {
            assert r.entries[i] == others.entries[i - 1];
            assert calls[i] == calls[1..][i - 1];
            var seen := others.invocations[..i];
            assert r.invocations[..i + 1] == [invocation] + seen;
            Associative(history, [invocation], seen);
            assert ReplyText(session((history + [invocation]) + others.invocations[..(i - 1) + 1])) == Some(others.entries[i - 1].text);
          }
        }
      }
    }
  }

  /** An error names the first call that did not complete, and why. */
  lemma {:induction false} RunToolCallsError(calls: seq<ToolCall>, loads: string -> Option<Json>,
                                             session: seq<Invocation> -> Reply, history: seq<Invocation>)
    ensures var r := RunToolCalls(calls, loads, session, history);
      r.error.Some? ==> |r.entries| < |calls| && r.error.value.callId == calls[|r.entries|].id
    ensures var r := RunToolCalls(calls, loads, session, history);
      r.error.Some? ==>
        (r.error.value.ArgumentsNotJson? <==>
           |r.invocations| == |r.entries| && loads(calls[|r.entries|].arguments).None?)
    ensures var r := RunToolCalls(calls, loads, session, history);
      r.error.Some? && r.error.value.CallRaised? ==>
        |r.invocations| == |r.entries| + 1 && session(history + r.invocations) == Raised(r.error.value.message)
    ensures var r := RunToolCalls(calls, loads, session, history);
      r.error.Some? && r.error.value.NoTextContent? ==>
        && |r.invocations| == |r.entries| + 1
        && session(history + r.invocations).Answered?
        && ReplyText(session(history + r.invocations)).None?
  {
    var r := RunToolCalls(calls, loads, session, history);
    if |calls| > 0 && loads(calls[0].arguments).Some? {
      var call := calls[0];
      var invocation := Invocation(call.name, loads(call.arguments).value);
      var reply := session(history + [invocation]);
      if reply.Raised? || ReplyText(reply).None? {
        assert r.invocations == [invocation];
      } else {
        var others := RunToolCalls(calls[1..], loads, session, history + [invocation]);
        assert r.invocations == [invocation] + others.invocations;
        assert r.entries == [ToolMessage(call.id, ReplyText(reply).value)] + others.entries;
        RunToolCallsError(calls[1..], loads, session, history + [invocation]);
        Associative(history, [invocation], others.invocations);
        if r.error.Some? {
          assert calls[|r.entries|] == calls[1..][|others.entries|];
        }
      }
    }
  }

  /** What one `process_query` did: the completion requests it built (the first is sent;
      the second is the argument list of the un-awaited `create` at client.py:127-132), the
      tool calls it made, and how it ended. */
  datatype Run = Run(requests: seq<CompletionRequest>, invocations: seq<Invocation>, outcome: Outcome)

  /** `DirectAnswer` is the model's text returned when it called no tool;
      `ToolResults` is the conversation built for the model after the tool calls; as
        written, the source never sends it (`create` is not awaited) and raises right after
        building it, when it reads `.choice` at client.py:134;
      `Aborted` is an exception raised in the tool loop. */
  datatype Outcome =
    | DirectAnswer(content: Option<string>)
    | ToolResults(conversation: seq<Message>)
    | Aborted(error: QueryError)

  /** `process_query(query)`, with `listed` the tools reported by the one `list_tools`
      call and `complete` the chat model. */
  function ProcessQuery(model: string, query: string, listed: seq<Tool>,
                        complete: CompletionRequest -> AssistantMessage,
                        loads: string -> Option<Json>,
                        session: seq<Invocation> -> Reply): (run: Run)
    // the first request: the user's query alone, every listed tool, tool calls allowed
    ensures 1 <= |run.requests| <= 2
    ensures run.requests[0] == CompletionRequest(model, [UserMessage(query)], GetMcpTools(listed), Auto)
    // no tool call: the model's text is the answer and the session is not used
    ensures |complete(run.requests[0]).toolCalls| == 0 <==> run.outcome.DirectAnswer?
    ensures run.outcome.DirectAnswer? ==>
      run.outcome.content == complete(run.requests[0]).content && run.invocations == [] && |run.requests| == 1
    // after the tool calls, a follow-up request is built from the conversation, with the
    // same tools and tool calls forbidden; a failed call builds nothing more
    ensures run.outcome.ToolResults? <==> |run.requests| == 2
    ensures run.outcome.ToolResults? ==>
      run.requests[1] == CompletionRequest(model, run.outcome.conversation, run.requests[0].tools, NoTools)
  {
    var tools := GetMcpTools(listed);
    var first := CompletionRequest(model, [UserMessage(query)], tools, Auto);
    var reply := complete(first);
    if |reply.toolCalls| == 0 then Run([first], [], DirectAnswer(reply.content))
    else
      var loop := RunToolCalls(reply.toolCalls, loads, session, []);
      match loop.error
      case Some(e) => Run([first], loop.invocations, Aborted(e))
      case None =>
        var conversation := [UserMessage(query), Assistant(reply)] + loop.entries;
        Run([first, CompletionRequest(model, conversation, tools, NoTools)],
            loop.invocations, ToolResults(conversation))
  }

  /** The tool calls `process_query` makes are the model's calls, in order, each with
      the call's name and its parsed arguments; when a conversation is built for the
      follow-up, all of them were made. */
  lemma ProcessQueryCalls(model: string, query: string, listed: seq<Tool>,
                          complete: CompletionRequest -> AssistantMessage,
                          loads: string -> Option<Json>,
                          session: seq<Invocation> -> Reply)
    ensures var run := ProcessQuery(model, query, listed, complete, loads, session);
      var calls := complete(run.requests[0]).toolCalls;
      && |run.invocations| <= |calls|
      && (forall i :: 0 <= i < |run.invocations| ==>
            run.invocations[i].name == calls[i].name && loads(calls[i].arguments) == Some(run.invocations[i].arguments))
      && (run.outcome.ToolResults? ==> |run.invocations| == |calls|)
  {
  }

  /** With k tool calls answered, the conversation built for the follow-up is the user's query, the
      model's message, then one tool message per call in order, carrying the call's id and
      the text of the result the session gave to that call. */
  lemma {:induction false} ProcessQueryConversation(model: string, query: string, listed: seq<Tool>,
                                                    complete: CompletionRequest -> AssistantMessage,
                                                    loads: string -> Option<Json>,
                                                    session: seq<Invocation> -> Reply)
    ensures var run := ProcessQuery(model, query, listed, complete, loads, session);
      var reply := complete(run.requests[0]);
      run.outcome.ToolResults? ==>
        var conversation := run.outcome.conversation;
        && |conversation| == 2 + |reply.toolCalls|
        && conversation[0] == UserMessage(query)
        && conversation[1] == Assistant(reply)
        && forall i :: 0 <= i < |reply.toolCalls| ==>
             && conversation[2 + i].ToolMessage?
             && conversation[2 + i].toolCallId == reply.toolCalls[i].id
             && ReplyText(session(run.invocations[..i + 1])) == Some(conversation[2 + i].text)
  {
    var run := ProcessQuery(model, query, listed, complete, loads, session);
    var reply := complete(run.requests[0]);
    if run.outcome.ToolResults? {
      var loop := RunToolCalls(reply.toolCalls, loads, session, []);
      RunToolCallsEntries(reply.toolCalls, loads, session, []);
      var conversation := run.outcome.conversation;
      assert conversation == [UserMessage(query), Assistant(reply)] + loop.entries;
      forall i | 0 <= i < |reply.toolCalls|
        ensures conversation[2 + i] == loop.entries[i]
        ensures run.invocations[..i + 1] == [] + loop.invocations[..i + 1]
      {
      }
    }
  }

  /** A query with tool calls ends as the tool loop did: it makes the loop's calls and
      aborts exactly with the loop's error. */
  lemma ProcessQueryLoop(model: string, query: string, listed: seq<Tool>,
                         complete: CompletionRequest -> AssistantMessage,
                         loads: string -> Option<Json>,
                         session: seq<Invocation> -> Reply)
    ensures var run := ProcessQuery(model, query, listed, complete, loads, session);
      var loop := RunToolCalls(complete(run.requests[0]).toolCalls, loads, session, []);
      run.outcome.Aborted? ==> run.invocations == loop.invocations && loop.error == Some(run.outcome.error)
  {
  }

  /** A tool loop run from a fresh session that stops early names the call that failed:
      its arguments did not parse (and it was not made), or it was the last call made and
      gave no text. */
  lemma LoopAborted(calls: seq<ToolCall>, loads: string -> Option<Json>, session: seq<Invocation> -> Reply)
    ensures var r := RunToolCalls(calls, loads, session, []);
      r.error.Some? && r.error.value.ArgumentsNotJson? ==>
        && |r.invocations| < |calls|
        && loads(calls[|r.invocations|].arguments).None?
        && r.error.value.callId == calls[|r.invocations|].id
    ensures var r := RunToolCalls(calls, loads, session, []);
      r.error.Some? && !r.error.value.ArgumentsNotJson? ==>
        && 0 < |r.invocations| <= |calls|
        && ReplyText(session(r.invocations)).None?
        && r.error.value.callId == calls[|r.invocations| - 1].id
  {
    var r := RunToolCalls(calls, loads, session, []);
    RunToolCallsError(calls, loads, session, []);
    if r.error.Some? {
      var e := r.error.value;
      assert [] + r.invocations == r.invocations;
      if e.ArgumentsNotJson? {
        assert |r.invocations| == |r.entries| < |calls|;
      } else if e.CallRaised? {
        assert session(r.invocations) == Raised(e.message);
      } else {
        assert ReplyText(session(r.invocations)).None?;
      }
    }
  }

  /** A query that stops early names the call that failed: its arguments did not parse
      (and it was not made), or it was the last call made and gave no text. */
  lemma ProcessQueryAborted(model: string, query: string, listed: seq<Tool>,
                            complete: CompletionRequest -> AssistantMessage,
                            loads: string -> Option<Json>,
                            session: seq<Invocation> -> Reply)
    ensures var run := ProcessQuery(model, query, listed, complete, loads, session);
      var calls := complete(run.requests[0]).toolCalls;
      run.outcome.Aborted? && run.outcome.error.ArgumentsNotJson? ==>
        && |run.invocations| < |calls|
        && loads(calls[|run.invocations|].arguments).None?
        && run.outcome.error.callId == calls[|run.invocations|].id
    ensures var run := ProcessQuery(model, query, listed, complete, loads, session);
      var calls := complete(run.requests[0]).toolCalls;
      run.outcome.Aborted? && !run.outcome.error.ArgumentsNotJson? ==>
        && 0 < |run.invocations| <= |calls|
        && ReplyText(session(run.invocations)).None?
        && run.outcome.error.callId == calls[|run.invocations| - 1].id
  {
    var run := ProcessQuery(model, query, listed, complete, loads, session);
    var calls := complete(run.requests[0]).toolCalls;
    ProcessQueryLoop(model, query, listed, complete, loads, session);
    LoopAborted(calls, loads, session);
  }

  /** When the arguments of every call the model asks for parse and every result the
      session gives starts with text, a query with tool calls ends with the assembled
      conversation (the follow-up request is built; see `Outcome`). */
  lemma ToolResultsWhenCallsSucceed(model: string, query: string, listed: seq<Tool>,
                                    complete: CompletionRequest -> AssistantMessage,
                                    loads: string -> Option<Json>,
                                    session: seq<Invocation> -> Reply)
    requires |complete(CompletionRequest(model, [UserMessage(query)], GetMcpTools(listed), Auto)).toolCalls| > 0
    requires var calls := complete(CompletionRequest(model, [UserMessage(query)], GetMcpTools(listed), Auto)).toolCalls;
      forall i :: 0 <= i < |calls| ==> loads(calls[i].arguments).Some?
    requires forall h :: |h| > 0 ==> ReplyText(session(h)).Some?
    ensures ProcessQuery(model, query, listed, complete, loads, session).outcome.ToolResults?
  {
    var calls := complete(CompletionRequest(model, [UserMessage(query)], GetMcpTools(listed), Auto)).toolCalls;
    RunToolCallsError(calls, loads, session, []);
  }
}

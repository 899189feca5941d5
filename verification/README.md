# Basic MCP project: a Dafny model of its own logic

The repository is a set of small MCP ("Model Context Protocol") demos: servers that expose
tools over stdio or server-sent events, clients that list and call those tools, and an
OpenAI client that lets a chat model choose tool calls. Almost everything is glue around
the MCP and OpenAI SDKs. This project models the three pieces of logic the repository
writes itself, as pure functions over immutable datatypes, and proves what they promise.

- `Calculator` (calculator.dfy): the `calculator` tool of the basic server. The operation
  name is checked against `add`, `subtract`, `multiply`, `divide` before any arithmetic.
  The two raised exceptions are the error variants of a `Result<real, CalcError>`.
- `KnowledgeBase` (knowledge_base.dfy): the `get_knowledge_base` tool. The outcome of
  opening and parsing `data/kb.json` is an input (`NotFound | InvalidJson | Failed(msg) |
  Loaded(json)`). A list is printed as numbered `Q{i}:`/`A{i}:` blocks; any other value is
  printed as the label "Knowledge Base Content: " followed by its JSON dump; every failure
  becomes an `"Error: ..."` text.
  The source's `for` loop is the method `FormatItems`. A reader (`ReadKnowledgeBase`) parses
  the text back. It shows that, when no question or answer contains a newline, the output
  holds one block per item, numbered 1..n in list order, each carrying the item's question
  and answer unchanged. With newlines the text is ambiguous: an answer can print exactly
  like two items (`NewlineMakesTextAmbiguous`).
- `OpenAIClient` (openai_client.dfy): `get_mcp_tools` and `process_query` of the OpenAI
  client. The chat model (`complete`), the MCP session (`session`) and `json.loads`
  (`loads`) are function parameters. `session` receives every call made so far, ending
  with the current one. The model states which requests are built, which tool calls are
  made and in what order, and how the conversation is assembled.
- Shared modules: `Wrappers` (`Option`, `Result`), `Json` (the value `json.load` returns,
  and Python's `str()` of it), `Text` (decimal rendering of an index and its reader,
  splitting at a character, `str.join`).

## Model

| member | source | states |
|---|---|---|
| Calculator.Calculate | 1_Basic_MCP/basic_mcp_server.py:15-33 | an unknown operation fails with InvalidOperation for every a and b; add, subtract and multiply return a+b, a-b, a*b; divide returns a/b, or DivisionByZero when b = 0 |
| Calculator.CalculateFailsIff | 1_Basic_MCP/basic_mcp_server.py:19-33 | the tool fails exactly when the operation is not one of the four or it is divide with b = 0; DivisionByZero happens exactly for divide with b = 0 |
| Calculator.Message | 1_Basic_MCP/basic_mcp_server.py:19-32 | the exact texts of the two exceptions: "Invalid operation '<op>'. Must be one of: add, subtract, multiply, divide" and "Cannot divide by zero" |
| Calculator.JoinValidOperations | 1_Basic_MCP/basic_mcp_server.py:19-21 | joining the valid names with ", " gives "add, subtract, multiply, divide" |
| Calculator.ParseOperation | 1_Basic_MCP/basic_mcp_server.py:19-20 | a name passes validation exactly when it is in the list of valid operations, and then it is the name of the operation found |
| Calculator.ParseName | 1_Basic_MCP/basic_mcp_server.py:19-20 | every operation's name passes validation as that operation |
| Calculator.CalculateIsParseThenApply | 1_Basic_MCP/basic_mcp_server.py:19-33 | the name is validated before any arithmetic: the string dispatch equals validating first and then applying the typed operation (two shapes of the same arithmetic, not an independent definition) |
| Calculator.MultiplyExample | client-stdio.py:30-31 | multiply with a = 45 and b = 61 gives 2745 |
| Text.NatToString | 2_MCP_OpenAI_Integration/server.py:35-39 | the printed index is a non-empty run of decimal digits without a leading zero |
| Text.ParseNatToString | 2_MCP_OpenAI_Integration/server.py:38-39 | a printed index reads back as the same number |
| Text.NatToStringInjective | 2_MCP_OpenAI_Integration/server.py:38-39 | distinct indices print differently, so no two blocks share a label |
| KnowledgeBase.ItemEntry | 2_MCP_OpenAI_Integration/server.py:31-36 | a dict item's missing "question"/"answer" becomes "Unknown Question"/"Unknown Answer" and present keys are used as str() of their value; any other item gets question "Item {i}" and answer str(item) |
| KnowledgeBase.RenderAppend | 2_MCP_OpenAI_Integration/server.py:30-39 | one more list item appends exactly one block, at the end, numbered one past the previous blocks |
| KnowledgeBase.FormatItems | 2_MCP_OpenAI_Integration/server.py:29-39 | the loop's text is the blocks of the items' pairs, in list order, numbered from 1 |
| KnowledgeBase.GetKnowledgeBase | 2_MCP_OpenAI_Integration/server.py:15-52 | a missing file, invalid JSON and any other failure give exactly the three error texts; a list gives the header then its blocks; an empty list gives exactly the header; any other value gives the header, "Knowledge Base Content: ", its dump and a blank line; the output starts with the header exactly when the load succeeded and with "Error: " exactly when it failed |
| KnowledgeBase.ReadTaggedLine | 2_MCP_OpenAI_Integration/server.py:38-39 | for a text without a newline, a printed "Q{i}: ..." or "A{i}: ..." line reads back as its index digits and its text |
| KnowledgeBase.ReadBlockOfBlock | 2_MCP_OpenAI_Integration/server.py:38-39 | for a pair whose question and answer hold no newline, a printed block reads back as its index and its pair |
| KnowledgeBase.ReadRender | 2_MCP_OpenAI_Integration/server.py:30-39 | when no question or answer holds a newline, a run of printed blocks reads back as the same pairs, numbered consecutively |
| KnowledgeBase.KnowledgeBaseReadsBack | 2_MCP_OpenAI_Integration/server.py:26-39 | when no item's question or answer holds a newline, the text for a list of n items reads back as exactly n blocks numbered 1..n, the i-th holding the i-th item's pair |
| KnowledgeBase.NewlineMakesTextAmbiguous | 2_MCP_OpenAI_Integration/server.py:30-39 | a single item whose answer is "a", a blank line, "Q2: q" and "A2: b" prints exactly like the two items (q, a) and (q, b), so the newline-free condition above cannot be dropped |
| OpenAIClient.GetMcpTools | 2_MCP_OpenAI_Integration/client.py:61-78 | one descriptor per tool, in order, each of type "function" with the tool's name, description and input schema copied unchanged |
| OpenAIClient.GetMcpToolsRoundTrip | 2_MCP_OpenAI_Integration/client.py:68-78 | each descriptor gives back exactly the tool it was made from |
| OpenAIClient.GetMcpToolsAppend | 2_MCP_OpenAI_Integration/client.py:68-78 | the descriptors of two tool lists one after the other are the two descriptor lists one after the other |
| OpenAIClient.RunToolCalls | 2_MCP_OpenAI_Integration/client.py:110-124 | the calls made are a prefix of the model's calls, in order, with the name and the parsed JSON arguments of each; when nothing fails every call is made and answered |
| OpenAIClient.RunToolCallsEntries | 2_MCP_OpenAI_Integration/client.py:117-124 | the i-th tool message carries the i-th call's id and the text of the first content block of the result the session gave after exactly the first i+1 calls |
| OpenAIClient.RunToolCallsError | 2_MCP_OpenAI_Integration/client.py:110-122 | a failure stops at the first call that did not complete and names it: unparsable arguments (call not made), a raising call_tool, or a result without a leading text block |
| OpenAIClient.ProcessQuery | 2_MCP_OpenAI_Integration/client.py:80-132 | the first request holds the query alone, all tools and tool_choice "auto"; the query is answered directly (the model's content, no tool called, one request) exactly when the model asks for no tool call; a second request is built exactly when the query ends with the tool-results conversation, and it holds that conversation, the same tools and tool_choice "none" (the arguments of the un-awaited create at client.py:127-132) |
| OpenAIClient.ProcessQueryCalls | 2_MCP_OpenAI_Integration/client.py:108-115 | the tool calls made are a prefix of the model's calls, in order, each with its name and its parsed arguments; when the conversation is built, all of them were made |
| OpenAIClient.ProcessQueryConversation | 2_MCP_OpenAI_Integration/client.py:100-124 | with k calls answered, the conversation is the user's query, the model's message, then k tool messages in call order, the i-th carrying the i-th call's id and the first text block of the result of the i-th call |
| OpenAIClient.LoopAborted | 2_MCP_OpenAI_Integration/client.py:110-122 | a tool loop that stops early names the failing call: its arguments did not parse and it was not made, or it was the last call made and its result raised or held no leading text block |
| OpenAIClient.ProcessQueryLoop | 2_MCP_OpenAI_Integration/client.py:107-124 | a query that aborts made exactly the tool loop's calls and raised the loop's error |
| OpenAIClient.ProcessQueryAborted | 2_MCP_OpenAI_Integration/client.py:110-122 | a query that stops early names the failing call: either its arguments did not parse and it was not made, or it was the last call made and its result raised or held no leading text block |
| OpenAIClient.ToolResultsWhenCallsSucceed | 2_MCP_OpenAI_Integration/client.py:107-132 | if the model calls tools, the arguments of each of those calls parse and every result starts with text, the query ends with the assembled conversation |

## Left out

- Transports and sessions: `stdio_client`, `sse_client`, `ClientSession`, `initialize`,
  `list_tools`, `call_tool`, `connect_to_server`, `cleanup` and `main`. These are
  asynchronous I/O inside the MCP SDK, which is not part of this model. The session is the
  `session` parameter and `list_tools` is the `listed` argument.
- client-stdio.py and client-sse.py: glue with no logic of their own. Only their worked
  example (45 * 61) is stated, by `Calculator.MultiplyExample`.
- FastMCP: tool registration, `mcp.run`, and the transport choice in basic_mcp_server.py.
  This includes how FastMCP turns a raised exception into an error result and a float into
  result text. FastMCP is not part of this model.
- `nest_asyncio`, `dotenv` and the OpenAI API. The API appears only through the `complete`
  parameter, which maps a request to the model's reply message.
- JSON handling: reading the file, `json.load`, `json.loads`, `json.dumps(indent=2)`, and
  Python's `str()` of non-string values. These are inputs or function parameters
  (`LoadOutcome`, `loads`, `dump`, `repr`). `str()` of a string is modelled as the string.
- Json.Json: a JSON object is a `map`, so the order of its keys is not modelled, and a number
  is an `int` or a `real`, so the sign of a zero (`-0.0` against `0.0`) is not modelled.
  Values that differ only in these print alike in the model (for example the answers of
  `{"b": 1, "a": 2}` and `{"a": 2, "b": 1}`), while Python's `str()` and `json.dumps` print
  them differently.
- Floating point: the calculator computes over `real`. IEEE rounding, NaN and infinity are
  not modelled, so no arithmetic law (such as subtraction undoing addition) is claimed for
  the tool: those fail for floats.
- KnowledgeBase.ReadTaggedLine: holds only for a text without a newline; a text with one
  cannot be read back unambiguously (see `NewlineMakesTextAmbiguous`).
- KnowledgeBase.ReadBlockOfBlock: holds only for a pair whose question and answer hold no
  newline; with one, the block cannot be read back unambiguously.
- KnowledgeBase.ReadRender: holds only when no question or answer holds a newline; with one,
  the blocks cannot be read back unambiguously.
- KnowledgeBase.KnowledgeBaseReadsBack: holds only when no item's question or answer holds a
  newline; with one, the tool's text cannot be read back unambiguously.
- OpenAIClient.ProcessQuery: the final answer after the tool calls (client.py:127-134) is
  not modelled. The model stops at the follow-up request it builds. As written, line 127 does
  not `await` the `create` call, so the follow-up request is built but never sent, and line
  134 reads `.choice` instead of `.choices`, so every query with a tool call ends in an
  exception there instead of returning the model's text.
- OpenAIClient.GetMcpTools: `parameters` copies the tool's input schema as an opaque value.
  The source reads `tool.inputScheme` (client.py:74), which the MCP SDK's tool record spells
  `inputSchema`. As written, if that record has no `inputScheme` attribute, the comprehension
  at client.py:68-78 raises AttributeError for any non-empty tool list, and `process_query`
  stops at line 86 before its first request. The model copies the schema, which is the
  evident intent; the SDK is not part of this model, so that consequence is not established
  here.
- OpenAIClient.RunToolCalls: the source indexes `result.content[0].text` without a check. An
  empty result, or one whose first block is not text, raises there. The model treats that as
  the `NoTextContent` error instead of assuming it never happens.
- Failures of `list_tools` and of the first `create` call are not modelled. They would raise
  out of `process_query` before any tool call.

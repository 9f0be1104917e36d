# Groq MCP client: the tool-calling orchestration, modelled in Dafny

This project models the core of `GroqMCPClient`. The client passes a user's
query to a Groq chat-completion model. It offers the model the tools that an
MCP (Model Context Protocol) server lists. It runs the tool calls the model
asks for and sends their results back for a final answer.

The model covers these parts:

- the tool schema adapter, from MCP descriptors to `{"type": "function", ...}` declarations;
- the conversion of tool calls into plain records;
- the completion caller, with its keyword arguments and its three-attempt retry;
- the tool dispatcher and the tool-call handler, which append to the caller's message list;
- `process_query`, the per-query state machine;
- the command layer of the chat loop: `/command argument` parsing, `/quit`, `/model`, `/clear`, the transcript append, and the `.py`/`.js` check for the server script.

External collaborators become oracles, passed in as data (`Types.Env`):

- the Groq endpoint is `complete(request, attempt)`;
- `json.loads` is `loads`;
- `json.dumps` is `dumps`, and `None` means it raised;
- the `str()` fallback is `render`;
- the text of the error raised after the third failed attempt is `exhausted`.

The MCP session is a class, `Client.McpSession`. Its listing and its tools are
constants, and it keeps a log of every tool invocation, so "the tool is never
called" is a fact about the session's state.

Layout:

- `types.dfy`: the data model.
- `schema.dfy` (module `SchemaAdapter`), `completion.dfy` (`Completion`), `dispatch.dfy` (`Dispatcher`), `orchestrator.dfy` (`Orchestrator`) and `commands.dfy` (`Commands`): the specification of each component as functions, with lemmas about them.
- `client.dfy` (`Client`): the imperative client. These are classes whose methods change the message list, the session log, the model and the transcript in place. Each method is proved against those functions.
- `scenarios.dfy`: three end-to-end runs.

Three behaviours of the code that are easy to miss:

- When a tool call's arguments do not parse, `_execute_tool_call` returns at once. It appends no tool message (src/mcp_client.py:212-215), so not every tool call gets an answer. `Dispatcher.AnsweredIffAllParse` and `Orchestrator.FinalHistoryPairing` prove what this implies: every tool message answers a call of the assistant message just before it, and the history sent for the final answer answers every tool call exactly when every call's arguments parse.
- `process_query` starts every query from a fresh one-message history. The transcript that `chat_loop` keeps in `self.messages` is never sent to the model. So `/clear` changes nothing that the model sees.
- The retry decorator is `stop_after_attempt(3)`. The configuration fields `max_retries`, `retry_wait_min` and `retry_wait_max` are never read. `Completion.MaxAttempts` is the decorator's 3.

## Model

| member | source | states |
|---|---|---|
| SchemaAdapter.ConvertToolSchema | src/mcp_client.py:126-146 | one declaration per descriptor, same length and order; each has type "function" and copies the name, description and input schema unchanged |
| SchemaAdapter.ToolCallRecords | src/mcp_client.py:181-197 | one record per tool call, same order, copying id, type, function name and argument text |
| Completion.BuildRequest | src/mcp_client.py:162-171 | the request carries model, messages and max_tokens; it carries `tools` and `tool_choice = "auto"` exactly when the tool list is non-empty |
| Completion.AttemptFrom | src/mcp_client.py:148 | from attempt k on, the retried call fails iff every attempt from k to 3 fails, and then its error is the exhaustion error built from the third failure |
| Completion.Complete | src/mcp_client.py:148-179 | the retried call fails iff all three attempts fail; when the first attempt responds, its response is the result |
| Completion.AttemptFromFirstResponse | src/mcp_client.py:148-179 | from attempt k on, the retried call succeeds iff some attempt from k to 3 is the first to respond, and then returns that response; otherwise it fails with the exhaustion error of the third failure |
| Completion.FirstResponseExists | src/mcp_client.py:148 | if any of the three attempts responds, one of them is the first to respond |
| Completion.CompleteIsFirstResponse | src/mcp_client.py:148-179 | a retried call succeeds iff one of at most 3 attempts responds, and then it returns the first response; it fails iff all 3 attempts fail, and then it carries the exhaustion error built from the third failure |
| Client.GroqMcpClient.MakeApiCall | src/mcp_client.py:148-179 | the retry loop makes between 1 and 3 attempts, all failed but the last; it returns the last attempt's response, or the exhaustion error after exactly 3 failures; its result is the one `Complete` specifies |
| Dispatcher.Dispatch | src/mcp_client.py:199-242 | one call gives one result text and one success flag; it invokes the tool iff the arguments parse, and appends exactly as many tool messages as invocations, at most one, answering the call's id |
| Dispatcher.DispatchOutcome | src/mcp_client.py:199-242 | unparsable arguments: the "Error parsing arguments for <name>: ..." text, failure, no invocation, no message. Otherwise: exactly one invocation with the parsed arguments and exactly one tool message with the call's id. On success that message holds the content normalised by `ResultText` (a `str` verbatim, anything else its JSON encoding, or its `str()` rendering when encoding fails), and the text is "[Tool <name> result: <content>]"; when the tool raises, message and text are the same "Error executing tool <name>: ..." and the call fails |
| Dispatcher.DispatchAll | src/mcp_client.py:266-269 | a batch gives one result text and one success flag per call, and no more invocations than calls, each with its own tool message |
| Dispatcher.DispatchAllResults | src/mcp_client.py:266-271 | a batch yields one result text and one success flag per call, in call order; each is what that call gives on its own, so an earlier failure does not stop a later call |
| Dispatcher.DispatchAllReplies | src/mcp_client.py:212-241 | the tool messages and the invocations of a batch match, one for one and in order, the calls whose arguments parse |
| Dispatcher.ParsedSubsequence | src/mcp_client.py:212-215 | the calls that parse are no more than the batch, each is a call of the batch, and they are the whole batch iff every call's arguments parse |
| Dispatcher.ParsedInOrder | src/mcp_client.py:266-269 | the calls that parse form a subsequence of the batch: they sit at strictly increasing positions, in the batch's order |
| Dispatcher.RepliesAnswerBatchCalls | src/mcp_client.py:228-241 | every tool message a batch appends answers the id of some call of that batch |
| Dispatcher.AnsweredIffAllParse | src/mcp_client.py:212-242 | a batch answers each of its calls in order iff every call's arguments parse; a call with bad arguments is left unanswered |
| Client.GroqMcpClient.ExecuteToolCall | src/mcp_client.py:199-242 | the result, the appended messages and the new session invocations are exactly those of `Dispatch`; on a parse failure neither the list nor the session changes |
| Client.GroqMcpClient.HandleToolCalls | src/mcp_client.py:244-271 | the existing list is kept as a prefix; then one assistant message with the content (or "") and the call records; then the batch's tool messages in call order; one result text per call |
| Client.GroqMcpClient.ExecuteAll | src/mcp_client.py:266-269 | the loop dispatches every call in order; its texts, appended messages and new session invocations are exactly `DispatchAll`'s |
| Client.GroqMcpClient.GetFinalResponse | src/mcp_client.py:273-288 | the final call is made without tools; the answer is `FinalAnswer` of the retried call: its content, or None (never an error text) when the call failed on every attempt |
| Orchestrator.Join | src/mcp_client.py:329 | the length of the joined text is the fragments' total length plus one for each gap between two consecutive fragments |
| Orchestrator.JoinConcat | src/mcp_client.py:329 | joining two non-empty fragment lists gives their joins with one newline between them |
| Orchestrator.JoinSplitsAt | src/mcp_client.py:329 | the joined text splits at any inner fragment boundary into the join of the fragments before it, one newline, and the join of the rest |
| Orchestrator.RunQuery | src/mcp_client.py:290-333 | a query makes at most two completion calls and none iff the tool listing fails; the first sends the user message with the adapted tools; a second one sends no tools; a tool is invoked only when that second call follows |
| Orchestrator.FirstRequestSeedsHistory | src/mcp_client.py:302-312 | the first request sends exactly one message, the user message with the query; it sends the adapted tools and "auto" exactly when the session lists a tool |
| Orchestrator.QueryWithoutToolCalls | src/mcp_client.py:313-329 | with absent or empty tool calls: one completion call, no tool invocation, output = the first content if non-empty, else "" |
| Orchestrator.QueryWithToolCalls | src/mcp_client.py:316-329 | with tool calls: exactly two completion calls. The second has no tools and no tool_choice, and its history is user message, assistant message with the calls, then the tool messages. The output is the newline join of the non-empty first content, one result text per call and the truthy final answer |
| Orchestrator.FinalFailureKeepsToolResults | src/mcp_client.py:282-288 | a failed final call only drops the final answer; the first content and the tool result texts are still returned |
| Orchestrator.QueryFatalErrors | src/mcp_client.py:305-333 | a failed tool listing, or a first call failing on all attempts, gives "Error processing query: <error>" with no tool invoked |
| Orchestrator.FinalHistoryPairing | src/mcp_client.py:257-269 | in the history sent for the final answer, every tool message answers a call of the preceding assistant message; every call is answered iff all arguments parse |
| Client.GroqMcpClient.ProcessQuery | src/mcp_client.py:290-333 | the output and the session's new invocations are those `RunQuery` specifies; the model and the transcript are untouched |
| Commands.LeadingSpaces | src/mcp_client.py:404 | counts the whitespace that begins at a position of a string, stopping at the first other character |
| Commands.TrailingSpaces | src/mcp_client.py:404 | counts the whitespace that ends a range of a string, stopping at the last other character |
| Commands.Strip | src/mcp_client.py:404 | the result is a slice of the input with only whitespace cut from both ends, and it neither begins nor ends with whitespace |
| Commands.StripIdempotent | src/mcp_client.py:404 | stripping a stripped line changes nothing |
| Commands.IndexOf | src/mcp_client.py:347 | the first position of a character, or None iff it does not occur |
| Commands.ParseCommand | src/mcp_client.py:335-350 | no command iff the line does not start with "/"; otherwise the command has no space, and "/" + command (+ " " + argument) rebuilds the line |
| Commands.ParseCommandRoundTrip | src/mcp_client.py:344-350 | parsing "/name" or "/name argument", for a name without spaces, gives back that name and argument |
| Commands.ServerCommand | src/mcp_client.py:97-102 | ".py" runs under "python", ".js" under "node", and any other path is refused with the ValueError message |
| Client.GroqMcpClient.HandleCommand | src/mcp_client.py:352-376 | continue iff the command is not "quit"; "model" with a non-empty argument sets the model, otherwise the model is unchanged; "clear" empties the transcript, otherwise it is unchanged |
| Client.GroqMcpClient.ChatStep | src/mcp_client.py:402-422 | an empty stripped line changes nothing. A non-empty command is handled as `HandleCommand` says, with no query. Any other line, including "/" and "/ text", is a query: its output is shown and the transcript grows by exactly the user/assistant pair |
| Client.GroqMcpClient.constructor | src/mcp_client.py:80-82 | model and token limit come from the configuration; `__init__` creates no transcript, and the model's starts empty, the state `StartChat` also sets |
| Client.GroqMcpClient.StartChat | src/mcp_client.py:400 | the chat loop starts with an empty transcript and the current model |
| Client.McpSession.CallTool | src/mcp_client.py:220 | a tool call records exactly one invocation and yields the tool's outcome |
| Client.McpSession.ListTools | src/mcp_client.py:307 | listing the tools yields the session's tool list, or the error it raises |
| Scenarios.ListTablesBatch | src/mcp_client.py:212-233 | a lone `list_tables` call with arguments "{}" yields its annotation, success, one invocation and one tool message carrying the tool's text |
| Scenarios.ListTablesScenario | src/mcp_client.py:302-329 | "list my tables" with one `list_tables` call and a final sentence gives the tool annotation, a newline and the sentence, with one invocation |
| Scenarios.HelloScenario | src/mcp_client.py:312-329 | "hello" answered "Hi there!" without tool calls gives exactly "Hi there!" after one completion call |
| Scenarios.BadArgumentsScenario | src/mcp_client.py:212-215 | the arguments "{bad json" give an "Error parsing arguments" text, failure, no invocation and no message |

## Left out

- Stdio transport and MCP session setup and teardown are not modelled: `connect_to_server` beyond its extension check, `cleanup`, the `AsyncExitStack` and `main`. The tool listing and the tools are constants of `McpSession`.
- The Groq client, its HTTP calls and `async`/`await` are not modelled. The endpoint is the oracle `complete(request, attempt)`. So two identical requests get the same answer at the same attempt number, and a tool's outcome depends only on its name and arguments.
- The exponential backoff waits of `wait_exponential(min=4, max=10)` are left out, and so is the exception type tenacity raises after the last attempt. Its text is the oracle `exhausted`.
- `temperature` is a float and is not part of `Types.Request`. Logging, dotenv and environment configuration, and the defaults of `GroqConfig` are left out too.
- The internals of `json.loads`, `json.dumps`, `str()` and `str(e)` are oracles. An exception is modelled by its message text.
- `_print_help` output, the `input()` and `print` calls of `chat_loop`, its `KeyboardInterrupt` branch and its catch-all handler are left out. In the model no step of a round raises.
- `response.choices[0]` is taken to exist. An empty `choices` list would raise inside `process_query`, and that case is not modelled.
- Client.GroqMcpClient.HandleToolCalls: requires the response to carry a tool-call list. The source iterates `tool_calls`, and its only caller checks first that the list is present and non-empty.
- src/mcp_server.py is not part of this model: database access, SQL text, and tool registration and startup.

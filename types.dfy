/**
 * Values exchanged by the Groq/MCP client: conversation messages, tool
 * descriptors and tool-call requests, chat-completion requests and the
 * oracles that stand for the LLM provider and for the JSON library.
 */
module Types {

  datatype Option<+T> = None | Some(value: T)

  datatype Result<+T, +E> = Ok(value: T) | Err(error: E)

  /** A JSON value, as produced by parsing tool-call arguments or held in a schema. */
  datatype Json =
    | JNull
    | JBool(b: bool)
    | JNumber(n: int)
    | JString(s: string)
    | JArray(items: seq<Json>)
    | JObject(fields: seq<(string, Json)>)

  /** An MCP tool descriptor as listed by the session (`Tool` objects). */
  datatype ToolDescriptor = ToolDescriptor(name: string, description: Option<string>, inputSchema: Json)

  /** The provider's function declaration: `{"name", "description", "parameters"}`. */
  datatype FunctionDecl = FunctionDecl(name: string, description: Option<string>, parameters: Json)

  /** The provider's tool declaration: `{"type": ..., "function": {...}}`. */
  datatype ToolDecl = ToolDecl(kind: string, fn: FunctionDecl)

  /** The function part of a tool call: its name and its JSON-encoded argument text. */
  datatype FunctionCall = FunctionCall(name: string, arguments: string)

  /** A tool call as the provider's response object carries it. */
  datatype ToolCall = ToolCall(id: string, kind: string, fn: FunctionCall)

  /** The plain record a tool call is converted to before it enters the history. */
  datatype ToolCallRecord = ToolCallRecord(id: string, kind: string, fn: FunctionCall)

  /** A conversation message; `toolCalls` is the optional `tool_calls` key of an assistant message. */
  datatype Message =
    | UserMessage(content: string)
    | AssistantMessage(content: string, toolCalls: Option<seq<ToolCallRecord>>)
    | ToolMessage(toolCallId: string, content: string)

  /** `choices[0].message` of a completion response: nullable content and nullable tool calls. */
  datatype AssistantTurn = AssistantTurn(content: Option<string>, toolCalls: Option<seq<ToolCall>>)

  /** The keyword arguments of one chat-completion request. */
  datatype Request = Request(
    model: string,
    messages: seq<Message>,
    maxTokens: nat,
    tools: Option<seq<ToolDecl>>,
    toolChoice: Option<string>)

  /** What one attempt at a completion call yields: a response, or an exception's text. */
  datatype ApiOutcome = Responded(turn: AssistantTurn) | Failed(error: string)

  /**
   * What `result.content` of an MCP tool call holds: a Python `str`, or any
   * other value (such as MCP's list of content objects), which is JSON-encoded.
   */
  datatype ToolContent = StrContent(text: string) | OtherContent(value: Json)

  /** What `session.call_tool` does: return a result, or raise an exception with a message. */
  datatype ToolOutcome = Returned(content: ToolContent) | Raised(error: string)

  /** One invocation of an MCP tool, as the session sees it. */
  datatype Invocation = Invocation(name: string, arguments: Json)

  /**
   * The collaborators whose behaviour is not part of this model:
   * - `loads`: `json.loads` (an error carries the text of the decode error),
   * - `dumps`: `json.dumps` (None when it raises),
   * - `render`: the `str()` fallback rendering,
   * - `complete`: the provider's chat-completion endpoint, given the request
   *   and the attempt number (1, 2, 3) within one retried call,
   * - `exhausted`: the text of the error raised once every attempt failed,
   *   given the text of the last failure.
   */
  datatype Env = Env(
    loads: string -> Result<Json, string>,
    dumps: Json -> Option<string>,
    render: Json -> string,
    complete: (Request, nat) -> ApiOutcome,
    exhausted: string -> string)

  /** Python truthiness of an optional string: present and non-empty. */
  predicate Truthy(s: Option<string>)
  {
    s.Some? && s.value != ""
  }
}

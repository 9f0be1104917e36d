/**
 * The client objects: the message list the helpers append to in place, the
 * MCP session with its record of tool invocations, and `GroqMCPClient`
 * itself, whose methods are proved against the specification functions of
 * Completion, Dispatcher, Orchestrator and Commands.
 */
module Client {
  import opened Types
  import opened SchemaAdapter
  import opened Completion
  import opened Dispatcher
  import opened Orchestrator
  import opened Commands

  /** A Python list of messages, shared with the helpers that append to it. */
  class MessageLog {
    var items: seq<Message>

    constructor (initial: seq<Message>)
      ensures items == initial
    {
      items := initial;
    }

    method Append(m: Message)
      modifies this
      ensures items == old(items) + [m]
    {
      items := items + [m];
    }
  }

  /**
   * The MCP client session: the tool listing it answers with, what each tool
   * does with its arguments, and the invocations made so far.
   */
  class McpSession {
    const listing: Result<seq<ToolDescriptor>, string>
    const respond: (string, Json) -> ToolOutcome
    var calls: seq<Invocation>

    constructor (listing: Result<seq<ToolDescriptor>, string>, respond: (string, Json) -> ToolOutcome)
      ensures this.listing == listing && this.respond == respond && calls == []
    {
      this.listing := listing;
      this.respond := respond;
      calls := [];
    }

    /** `session.list_tools()`: the current tools, or the exception's text. */
    method ListTools() returns (r: Result<seq<ToolDescriptor>, string>)
      ensures r == listing
    {
      r := listing;
    }

    /** `session.call_tool(name, args)`: records the invocation and yields the tool's outcome. */
    method CallTool(name: string, arguments: Json) returns (r: ToolOutcome)
      modifies this
      ensures r == respond(name, arguments)
      ensures calls == old(calls) + [Invocation(name, arguments)]
    {
      r := respond(name, arguments);
      calls := calls + [Invocation(name, arguments)];
    }
  }

  /** Regrouping the pieces a list has been extended by. */
  lemma Regroup<T>(x: seq<T>, y: seq<T>, z: seq<T>)
    ensures (x + y) + z == x + (y + z)
  {
  }

  class GroqMcpClient {
    /** The model named in every completion request; `/model` changes it. */
    var model: string
    /** `config.max_tokens`. */
    const maxTokens: nat
    /** The chat loop's transcript of user/assistant pairs; `/clear` empties it. */
    var messages: seq<Message>
    const session: McpSession

    constructor (model: string, maxTokens: nat, session: McpSession)
      ensures this.model == model && this.maxTokens == maxTokens && this.session == session
      ensures messages == []
    {
      this.model := model;
      this.maxTokens := maxTokens;
      this.session := session;
      messages := [];
    }

    /**
     * `_make_groq_api_call` under its retry decorator: attempts the request
     * built from the current model until one attempt responds, at most three
     * times. Reports how many attempts were made: every attempt before the
     * last failed, the last one's response is returned, and the exhaustion
     * error is raised only after the third failure.
     */
    method MakeApiCall(history: seq<Message>, tools: seq<ToolDecl>, env: Env)
      returns (r: Result<AssistantTurn, string>, attempts: nat)
      ensures var req := BuildRequest(model, maxTokens, history, tools);
        && r == Complete(env, req)
        && 1 <= attempts <= MaxAttempts
        && (forall j :: 1 <= j < attempts ==> env.complete(req, j).Failed?)
        && (r.Ok? ==> env.complete(req, attempts) == Responded(r.value))
        && (r.Err? ==> attempts == MaxAttempts && env.complete(req, attempts).Failed?
                       && r.error == env.exhausted(env.complete(req, attempts).error))
    {
      var req := BuildRequest(model, maxTokens, history, tools);
      attempts := 1;
      while true
        invariant 1 <= attempts <= MaxAttempts
        invariant forall j :: 1 <= j < attempts ==> env.complete(req, j).Failed?
        invariant Complete(env, req) == AttemptFrom(env, req, attempts)
        decreases MaxAttempts - attempts
      {
        match env.complete(req, attempts)
        case Responded(turn) =>
          r := Ok(turn);
          return;
        case Failed(e) =>
          if attempts == MaxAttempts {
            r := Err(env.exhausted(e));
            return;
          }
          attempts := attempts + 1;
      }
    }

    /**
     * `_get_final_response`: one more completion call, without tools; its
     * content, or None when the call failed on every attempt.
     */
    method GetFinalResponse(history: seq<Message>, env: Env) returns (answer: Option<string>)
      ensures var outcome := Complete(env, BuildRequest(model, maxTokens, history, []));
        && answer == FinalAnswer(outcome)
        && (outcome.Err? ==> answer.None?)
        && (outcome.Ok? ==> answer == outcome.value.content)
    {
      var r, _ := MakeApiCall(history, [], env);
      answer := if r.Ok? then r.value.content else None;
    }

    /**
     * `_execute_tool_call`: parses the arguments, calls the tool and appends
     * the tool message, exactly as `Dispatch` says; on a parse failure neither
     * the history nor the session changes.
     */
    method ExecuteToolCall(call: ToolCall, log: MessageLog, env: Env) returns (text: string, succeeded: bool)
      modifies log, session
      ensures var d := Dispatch(env, session.respond, call);
        && d.texts == [text] && d.succeeded == [succeeded]
        && log.items == old(log.items) + d.appended
        && session.calls == old(session.calls) + d.invoked
    {
      var name := call.fn.name;
      match env.loads(call.fn.arguments)
      case Err(e) =>
        text, succeeded := ParseErrorText(name, e), false;
      case Ok(args) =>
        var outcome := session.CallTool(name, args);
        match outcome
        case Returned(content) =>
          var c := ResultText(env, content);
          log.Append(ToolMessage(call.id, c));
          text, succeeded := ResultAnnotation(name, c), true;
        case Raised(e) =>
          var msg := ToolErrorText(name, e);
          log.Append(ToolMessage(call.id, msg));
          text, succeeded := msg, false;
    }

    /**
     * `_handle_tool_calls`: appends one assistant message carrying the calls,
     * then dispatches every call in emitted order, whatever the earlier ones
     * did, collecting one result text per call.
     */
    method HandleToolCalls(turn: AssistantTurn, log: MessageLog, env: Env) returns (texts: seq<string>)
      requires turn.toolCalls.Some?
      modifies log, session
      ensures var b := DispatchAll(env, session.respond, turn.toolCalls.value);
        && texts == b.texts
        && log.items == old(log.items) + [AssistantEntry(turn)] + b.appended
        && session.calls == old(session.calls) + b.invoked
    {
      var calls := turn.toolCalls.value;
      var records := ToolCallRecords(calls);
      log.Append(AssistantMessage(if Truthy(turn.content) then turn.content.value else "", Some(records)));
      texts := ExecuteAll(calls, log, env);
    }

    /** The loop of `_handle_tool_calls`: every call in order, as `DispatchAll` says. */
    method ExecuteAll(calls: seq<ToolCall>, log: MessageLog, env: Env) returns (texts: seq<string>)
      modifies log, session
      ensures var b := DispatchAll(env, session.respond, calls);
        && texts == b.texts
        && log.items == old(log.items) + b.appended
        && session.calls == old(session.calls) + b.invoked
    {
      texts := [];
      ghost var done := Dispatched([], [], [], []);
      for i := 0 to |calls|
        invariant done == DispatchAll(env, session.respond, calls[..i])
        invariant texts == done.texts
        invariant log.items == old(log.items) + done.appended
        invariant session.calls == old(session.calls) + done.invoked
      {
        DispatchAllSnoc(env, session.respond, calls, i);
        ghost var d := Dispatch(env, session.respond, calls[i]);
        var text, _ := ExecuteToolCall(calls[i], log, env);
        Regroup(old(log.items), done.appended, d.appended);
        Regroup(old(session.calls), done.invoked, d.invoked);
        done := Then(done, d);
        texts := texts + [text];
      }
      assert calls[..|calls|] == calls;
    }

    /**
     * `process_query`: runs one query against a fresh history, as `RunQuery`
     * says, and leaves the chat transcript and the model alone.
     */
    method ProcessQuery(query: string, env: Env) returns (output: string)
      modifies session
      ensures var run := RunQuery(env, session.listing, session.respond, model, maxTokens, query);
        output == run.output && session.calls == old(session.calls) + run.invoked
    {
      var listing := session.ListTools();
      if listing.Err? {
        output := QueryErrorText(listing.error);
        return;
      }
      var log := new MessageLog([UserMessage(query)]);
      var tools := ConvertToolSchema(listing.value);
      var first, _ := MakeApiCall(log.items, tools, env);
      if first.Err? {
        output := QueryErrorText(first.error);
        return;
      }
      var turn := first.value;
      var fragments := [];
      if Truthy(turn.content) {
        fragments := fragments + [turn.content.value];
      }
      assert fragments == Fragment(turn.content);
      if turn.toolCalls.Some? && turn.toolCalls.value != [] {
        ghost var batch := DispatchAll(env, session.respond, turn.toolCalls.value);
        var results := HandleToolCalls(turn, log, env);
        fragments := fragments + results;
        var answer := GetFinalResponse(log.items, env);
        if Truthy(answer) {
          fragments := fragments + [answer.value];
        }
        assert fragments == Fragment(turn.content) + batch.texts + Fragment(answer);
        RunQueryWithToolCalls(env, listing, session.respond, model, maxTokens, query, turn);
      }
      output := Join(fragments);
    }

    /** The start of `chat_loop`: the transcript begins as an empty list. */
    method StartChat()
      modifies this
      ensures messages == [] && model == old(model)
    {
      messages := [];
    }

    /**
     * `_handle_command`: "quit" stops the loop; "model" with a non-empty
     * argument switches the model and without one leaves it; "clear" empties
     * the transcript; "help" and anything else change nothing.
     */
    method HandleCommand(command: string, argument: Option<string>) returns (proceed: bool)
      modifies this
      ensures proceed <==> command != "quit"
      ensures model == (if command == "model" && Truthy(argument) then argument.value else old(model))
      ensures messages == (if command == "clear" then [] else old(messages))
    {
      if command == "quit" {
        return false;
      } else if command == "model" {
        if !Truthy(argument) {
          return true;
        }
        model := argument.value;
      } else if command == "clear" {
        messages := [];
      }
      return true;
    }

    /**
     * One round of `chat_loop`: the stripped line is skipped when empty; a
     * line naming a non-empty command goes to `HandleCommand`; anything else
     * (including "/" and "/ text") is a query whose response is shown and
     * recorded in the transcript as a user/assistant pair.
     */
    method ChatStep(line: string, env: Env) returns (proceed: bool, shown: Option<string>)
      modifies this, session
      ensures var query := Strip(line);
        var parsed := ParseCommand(query);
        if query == "" then
          proceed && shown.None? && model == old(model) && messages == old(messages)
          && session.calls == old(session.calls)
        else if parsed.Some? && parsed.value.name != "" then
          var c := parsed.value;
          && shown.None? && session.calls == old(session.calls)
          && (proceed <==> c.name != "quit")
          && model == (if c.name == "model" && Truthy(c.argument) then c.argument.value else old(model))
          && messages == (if c.name == "clear" then [] else old(messages))
        else
          var run := RunQuery(env, session.listing, session.respond, old(model), maxTokens, query);
          && proceed && shown == Some(run.output) && model == old(model)
          && messages == old(messages) + [UserMessage(query), AssistantMessage(run.output, None)]
          && session.calls == old(session.calls) + run.invoked
    {
      var query := Strip(line);
      if query == "" {
        return true, None;
      }
      var parsed := ParseCommand(query);
      if parsed.Some? && parsed.value.name != "" {
        proceed := HandleCommand(parsed.value.name, parsed.value.argument);
        return proceed, None;
      }
      var response := ProcessQuery(query, env);
      messages := messages + [UserMessage(query), AssistantMessage(response, None)];
      return true, Some(response);
    }
  }
}

/**
 * The conversation orchestrator: what one query sends to the provider,
 * which tools it invokes and which text it returns, as a function of the
 * oracles' answers.
 */
module Orchestrator {
  import opened Types
  import opened SchemaAdapter
  import opened Completion
  import opened Dispatcher

  /** The prefix of the text returned when a query fails before any tool runs. */
  function QueryErrorText(error: string): string
  {
    "Error processing query: " + error
  }

  /** The total length of `parts`. */
  function TotalLength(parts: seq<string>): nat
  {
    if parts == [] then 0 else TotalLength(parts[..|parts| - 1]) + |parts[|parts| - 1]|
  }

  /**
   * `"\n".join(parts)`: every part, with exactly one newline between two
   * consecutive parts and none around them.
   */
  function Join(parts: seq<string>): (r: string)
    ensures |r| == TotalLength(parts) + (if parts == [] then 0 else |parts| - 1)
  {
    if parts == [] then ""
    else if |parts| == 1 then
      assert parts[..0] == [];
      parts[0]
    else Join(parts[..|parts| - 1]) + "\n" + parts[|parts| - 1]
  }

  /** Joining splits at any inner position: the join of the parts before it, a newline, the join of the rest. */
  lemma JoinSplitsAt(parts: seq<string>, k: nat)
    requires 0 < k < |parts|
    ensures Join(parts) == Join(parts[..k]) + "\n" + Join(parts[k..])
  {
    assert parts == parts[..k] + parts[k..];
    JoinConcat(parts[..k], parts[k..]);
  }

  /** Joining at least two parts: the join of all but the last, a newline, and the last. */
  lemma JoinSnoc(parts: seq<string>)
    requires |parts| >= 2
    ensures Join(parts) == Join(parts[..|parts| - 1]) + "\n" + parts[|parts| - 1]
  {
  }

  /** Joining two non-empty lists of parts puts one newline between their joins. */
  lemma {:induction false} JoinConcat(a: seq<string>, b: seq<string>)
    requires a != [] && b != []
    ensures Join(a + b) == Join(a) + "\n" + Join(b)
    decreases |b|
  {
    var init, last := b[..|b| - 1], b[|b| - 1];
    JoinSnoc(a + b);
    assert (a + b)[..|a + b| - 1] == a + init && (a + b)[|a + b| - 1] == last;
    if init == [] {
      assert a + init == a && b == [last];
    } else {
      JoinConcat(a, init);
      JoinSnoc(b);
      NewlineRegroup(Join(a), Join(init), last);
    }
  }

  /** Regrouping two newline-separated joins. */
  lemma NewlineRegroup(x: string, y: string, z: string)
    ensures (x + "\n" + y) + "\n" + z == x + "\n" + (y + "\n" + z)
  {
  }

  /** The first response asks for tools: its `tool_calls` are present and non-empty. */
  predicate HasToolCalls(turn: AssistantTurn)
  {
    turn.toolCalls.Some? && turn.toolCalls.value != []
  }

  /** The response content as an output fragment, when it is truthy. */
  function Fragment(content: Option<string>): seq<string>
  {
    if Truthy(content) then [content.value] else []
  }

  /** The assistant message recorded before the tools run: content or "", and the call records. */
  function AssistantEntry(turn: AssistantTurn): Message
    requires turn.toolCalls.Some?
  {
    AssistantMessage(if Truthy(turn.content) then turn.content.value else "", Some(ToolCallRecords(turn.toolCalls.value)))
  }

  /** `_get_final_response`: the content of the final completion, or None when that call failed. */
  function FinalAnswer(r: Result<AssistantTurn, string>): (answer: Option<string>)
    ensures r.Err? ==> answer.None?
    ensures r.Ok? ==> answer == r.value.content
  {
    if r.Ok? then r.value.content else None
  }

  /** Everything one query does, as seen from outside. */
  datatype QueryRun = QueryRun(
    output: string,             // the text returned to the chat loop
    requests: seq<Request>,     // the completion calls made, in order
    invoked: seq<Invocation>)   // the MCP tool invocations made, in order

  /**
   * `process_query`, given the session's tool listing and tool oracle: seed
   * the history with the query, call the provider with the adapted tools,
   * run any requested tools and ask once more, without tools, for a final
   * answer; join the fragments with newlines. A failed listing or a failed
   * first call yields the error text instead.
   */
  function RunQuery(env: Env, listing: Result<seq<ToolDescriptor>, string>,
                    respond: (string, Json) -> ToolOutcome,
                    model: string, maxTokens: nat, query: string): (run: QueryRun)
    ensures |run.requests| <= 2
    ensures run.requests == [] <==> listing.Err?
    ensures listing.Ok? ==> run.requests[0] == BuildRequest(model, maxTokens, [UserMessage(query)], ConvertToolSchema(listing.value))
    ensures |run.requests| == 2 ==> run.requests[1].tools.None? && run.requests[1].toolChoice.None?
    ensures run.invoked != [] ==> |run.requests| == 2
  {
    match listing
    case Err(e) => QueryRun(QueryErrorText(e), [], [])
    case Ok(tools) =>
      var seed := [UserMessage(query)];
      var first := BuildRequest(model, maxTokens, seed, ConvertToolSchema(tools));
      match Complete(env, first)
      case Err(e) => QueryRun(QueryErrorText(e), [first], [])
      case Ok(turn) =>
        if !HasToolCalls(turn) then QueryRun(Join(Fragment(turn.content)), [first], [])
        else
          var batch := DispatchAll(env, respond, turn.toolCalls.value);
          var history := seed + [AssistantEntry(turn)] + batch.appended;
          var last := BuildRequest(model, maxTokens, history, []);
          var answer := FinalAnswer(Complete(env, last));
          QueryRun(Join(Fragment(turn.content) + batch.texts + Fragment(answer)), [first, last], batch.invoked)
  }

  /** The value of `RunQuery` when the first response asks for tools, spelled out. */
  lemma RunQueryWithToolCalls(env: Env, listing: Result<seq<ToolDescriptor>, string>,
                              respond: (string, Json) -> ToolOutcome,
                              model: string, maxTokens: nat, query: string, turn: AssistantTurn)
    requires listing.Ok?
    requires Complete(env, BuildRequest(model, maxTokens, [UserMessage(query)], ConvertToolSchema(listing.value))) == Ok(turn)
    requires HasToolCalls(turn)
    ensures var batch := DispatchAll(env, respond, turn.toolCalls.value);
      var last := BuildRequest(model, maxTokens, [UserMessage(query), AssistantEntry(turn)] + batch.appended, []);
      RunQuery(env, listing, respond, model, maxTokens, query)
        == QueryRun(Join(Fragment(turn.content) + batch.texts + Fragment(FinalAnswer(Complete(env, last)))),
                    [BuildRequest(model, maxTokens, [UserMessage(query)], ConvertToolSchema(listing.value)), last],
                    batch.invoked)
  {
    assert [UserMessage(query)] + [AssistantEntry(turn)] == [UserMessage(query), AssistantEntry(turn)];
  }

  /** `"\n".join` of one fragment is that fragment, and of none is "". */
  lemma JoinSingle(parts: seq<string>)
    requires |parts| <= 1
    ensures Join(parts) == if parts == [] then "" else parts[0]
  {
  }

  /**
   * The first completion call of a query sends exactly one message, the user
   * message holding the query, and the adapted tools with `tool_choice = "auto"`
   * exactly when the session lists at least one tool.
   */
  lemma FirstRequestSeedsHistory(env: Env, listing: Result<seq<ToolDescriptor>, string>,
                                 respond: (string, Json) -> ToolOutcome,
                                 model: string, maxTokens: nat, query: string)
    requires listing.Ok?
    ensures var run := RunQuery(env, listing, respond, model, maxTokens, query);
      && 1 <= |run.requests| <= 2
      && run.requests[0].messages == [UserMessage(query)]
      && run.requests[0].model == model
      && (run.requests[0].tools.Some? <==> listing.value != [])
      && (run.requests[0].tools.Some? ==>
            run.requests[0].tools.value == ConvertToolSchema(listing.value)
            && run.requests[0].toolChoice == Some("auto"))
  {
  }

  /**
   * Without tool calls (absent or empty) the query makes one completion call,
   * invokes no tool and returns the first content when it is non-empty, "" otherwise.
   */
  lemma QueryWithoutToolCalls(env: Env, listing: Result<seq<ToolDescriptor>, string>,
                              respond: (string, Json) -> ToolOutcome,
                              model: string, maxTokens: nat, query: string)
    requires listing.Ok?
    requires var first := BuildRequest(model, maxTokens, [UserMessage(query)], ConvertToolSchema(listing.value));
      Complete(env, first).Ok? && !HasToolCalls(Complete(env, first).value)
    ensures var run := RunQuery(env, listing, respond, model, maxTokens, query);
      var turn := Complete(env, BuildRequest(model, maxTokens, [UserMessage(query)], ConvertToolSchema(listing.value))).value;
      && |run.requests| == 1 && run.invoked == []
      && run.output == (if Truthy(turn.content) then turn.content.value else "")
  {
    var turn := Complete(env, BuildRequest(model, maxTokens, [UserMessage(query)], ConvertToolSchema(listing.value))).value;
    JoinSingle(Fragment(turn.content));
  }

  /**
   * With tool calls the query makes exactly two completion calls. The second
   * sends no tools and no `tool_choice`, and its history is the user message,
   * one assistant message carrying the calls, then the tool messages of the
   * batch. The tools are invoked as the batch invokes them, and the output is
   * the non-empty first content, each call's result text in order, and the
   * final answer when it is truthy, joined by newlines.
   */
  lemma QueryWithToolCalls(env: Env, listing: Result<seq<ToolDescriptor>, string>,
                           respond: (string, Json) -> ToolOutcome,
                           model: string, maxTokens: nat, query: string)
    requires listing.Ok?
    requires var first := BuildRequest(model, maxTokens, [UserMessage(query)], ConvertToolSchema(listing.value));
      Complete(env, first).Ok? && HasToolCalls(Complete(env, first).value)
    ensures var run := RunQuery(env, listing, respond, model, maxTokens, query);
      var turn := Complete(env, BuildRequest(model, maxTokens, [UserMessage(query)], ConvertToolSchema(listing.value))).value;
      var calls := turn.toolCalls.value;
      var batch := DispatchAll(env, respond, calls);
      && |run.requests| == 2
      && run.requests[1].tools.None? && run.requests[1].toolChoice.None?
      && run.requests[1].messages == [UserMessage(query), AssistantEntry(turn)] + batch.appended
      && run.requests[1].messages[1].toolCalls.Some?
      && |run.requests[1].messages[1].toolCalls.value| == |calls|
      && (forall i :: 0 <= i < |calls| ==> run.requests[1].messages[1].toolCalls.value[i].id == calls[i].id)
      && run.invoked == batch.invoked
      && |batch.texts| == |calls|
      && run.output == Join(Fragment(turn.content) + batch.texts + Fragment(FinalAnswer(Complete(env, run.requests[1]))))
  {
    var turn := Complete(env, BuildRequest(model, maxTokens, [UserMessage(query)], ConvertToolSchema(listing.value))).value;
    RunQueryWithToolCalls(env, listing, respond, model, maxTokens, query, turn);
    DispatchAllResults(env, respond, turn.toolCalls.value);
  }

  /**
   * A failure of the final completion call only drops the final answer: the
   * output is still the first content and the tool result texts.
   */
  lemma FinalFailureKeepsToolResults(env: Env, listing: Result<seq<ToolDescriptor>, string>,
                                     respond: (string, Json) -> ToolOutcome,
                                     model: string, maxTokens: nat, query: string)
    requires listing.Ok?
    requires var first := BuildRequest(model, maxTokens, [UserMessage(query)], ConvertToolSchema(listing.value));
      Complete(env, first).Ok? && HasToolCalls(Complete(env, first).value)
    requires Complete(env, RunQuery(env, listing, respond, model, maxTokens, query).requests[1]).Err?
    ensures var turn := Complete(env, BuildRequest(model, maxTokens, [UserMessage(query)], ConvertToolSchema(listing.value))).value;
      RunQuery(env, listing, respond, model, maxTokens, query).output
        == Join(Fragment(turn.content) + DispatchAll(env, respond, turn.toolCalls.value).texts)
  {
    var turn := Complete(env, BuildRequest(model, maxTokens, [UserMessage(query)], ConvertToolSchema(listing.value))).value;
    assert Fragment(None) == [];
    var parts := Fragment(turn.content) + DispatchAll(env, respond, turn.toolCalls.value).texts;
    assert parts + [] == parts;
  }

  /**
   * A failed tool listing, or a first completion call that failed on every
   * attempt, yields `"Error processing query: <error>"` and invokes no tool.
   */
  lemma QueryFatalErrors(env: Env, listing: Result<seq<ToolDescriptor>, string>,
                         respond: (string, Json) -> ToolOutcome,
                         model: string, maxTokens: nat, query: string)
    ensures var run := RunQuery(env, listing, respond, model, maxTokens, query);
      && (listing.Err? ==> run.output == QueryErrorText(listing.error) && run.requests == [] && run.invoked == [])
      && (listing.Ok? ==>
            var first := BuildRequest(model, maxTokens, [UserMessage(query)], ConvertToolSchema(listing.value));
            Complete(env, first).Err? ==>
              run.output == QueryErrorText(env.exhausted(env.complete(first, MaxAttempts).error))
              && run.requests == [first] && run.invoked == [])
  {
    if listing.Ok? {
      CompleteIsFirstResponse(env, BuildRequest(model, maxTokens, [UserMessage(query)], ConvertToolSchema(listing.value)));
    }
  }

  /**
   * The history sent with the final completion call: every tool message
   * answers a call of the assistant message just before it, and every call
   * is answered exactly when the arguments of every call parse.
   */
  lemma FinalHistoryPairing(env: Env, listing: Result<seq<ToolDescriptor>, string>,
                            respond: (string, Json) -> ToolOutcome,
                            model: string, maxTokens: nat, query: string)
    requires listing.Ok?
    requires var first := BuildRequest(model, maxTokens, [UserMessage(query)], ConvertToolSchema(listing.value));
      Complete(env, first).Ok? && HasToolCalls(Complete(env, first).value)
    ensures var run := RunQuery(env, listing, respond, model, maxTokens, query);
      var calls := Complete(env, run.requests[0]).value.toolCalls.value;
      var replies := run.requests[1].messages[2..];
      && (forall k :: 0 <= k < |replies| ==>
            replies[k].ToolMessage? && IsCallId(replies[k].toolCallId, calls))
      && (EveryCallAnswered(calls, replies) <==>
            forall i :: 0 <= i < |calls| ==> env.loads(calls[i].fn.arguments).Ok?)
  {
    var run := RunQuery(env, listing, respond, model, maxTokens, query);
    var turn := Complete(env, run.requests[0]).value;
    var batch := DispatchAll(env, respond, turn.toolCalls.value);
    assert run.requests[1].messages[2..] == batch.appended;
    RepliesAnswerBatchCalls(env, respond, turn.toolCalls.value);
    AnsweredIffAllParse(env, respond, turn.toolCalls.value);
  }
}

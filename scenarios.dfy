/**
 * Three end-to-end runs of a query, stated over any oracles that answer as
 * the scenario says.
 */
module Scenarios {
  import opened Types
  import opened SchemaAdapter
  import opened Completion
  import opened Dispatcher
  import opened Orchestrator

  const ListTables: ToolDescriptor := ToolDescriptor("list_tables", Some("List all tables"), JObject([]))
  const TablesCall: ToolCall := ToolCall("call_1", "function", FunctionCall("list_tables", "{}"))
  const TablesTurn: AssistantTurn := AssistantTurn(None, Some([TablesCall]))
  const TablesJson: string := "[\"users\", \"orders\"]"
  const TablesAnswer: string := "You have two tables: users and orders."

  /** The one-call batch of the "list my tables" run. */
  lemma ListTablesBatch(env: Env, respond: (string, Json) -> ToolOutcome)
    requires env.loads("{}") == Ok(JObject([]))
    requires respond("list_tables", JObject([])) == Returned(StrContent(TablesJson))
    ensures DispatchAll(env, respond, [TablesCall])
      == Dispatched(["[Tool list_tables result: " + TablesJson + "]"], [true],
                    [Invocation("list_tables", JObject([]))], [ToolMessage("call_1", TablesJson)])
  {
    var d := Dispatch(env, respond, TablesCall);
    assert TablesCall.fn.arguments == "{}" && TablesCall.fn.name == "list_tables";
    assert ResultAnnotation("list_tables", TablesJson) == "[Tool list_tables result: " + TablesJson + "]";
    assert d == Dispatched(["[Tool list_tables result: " + TablesJson + "]"], [true],
                           [Invocation("list_tables", JObject([]))], [ToolMessage("call_1", TablesJson)]);
    assert [TablesCall][..|[TablesCall]| - 1] == [];
    assert DispatchAll(env, respond, []) == Dispatched([], [], [], []);
  }

  /**
   * "list my tables": the first response asks for `list_tables` with empty
   * arguments and no content, the tool returns the two table names and the
   * final call answers in a sentence. The output is the tool's annotation,
   * a newline and the sentence, and the tool was invoked once.
   */
  lemma ListTablesScenario(env: Env, respond: (string, Json) -> ToolOutcome, model: string, maxTokens: nat)
    requires env.loads("{}") == Ok(JObject([]))
    requires respond("list_tables", JObject([])) == Returned(StrContent(TablesJson))
    requires env.complete(BuildRequest(model, maxTokens, [UserMessage("list my tables")],
                                       ConvertToolSchema([ListTables])), 1) == Responded(TablesTurn)
    requires env.complete(BuildRequest(model, maxTokens,
                                       [UserMessage("list my tables"), AssistantEntry(TablesTurn),
                                        ToolMessage("call_1", TablesJson)], []), 1)
             == Responded(AssistantTurn(Some(TablesAnswer), None))
    ensures var run := RunQuery(env, Ok([ListTables]), respond, model, maxTokens, "list my tables");
      && run.output == "[Tool list_tables result: " + TablesJson + "]\n" + TablesAnswer
      && run.invoked == [Invocation("list_tables", JObject([]))]
      && |run.requests| == 2
  {
    ListTablesBatch(env, respond);
    var batch := DispatchAll(env, respond, [TablesCall]);
    var history := [UserMessage("list my tables"), AssistantEntry(TablesTurn)] + batch.appended;
    assert history == [UserMessage("list my tables"), AssistantEntry(TablesTurn), ToolMessage("call_1", TablesJson)];
    var last := BuildRequest(model, maxTokens, history, []);
    assert Complete(env, last) == Ok(AssistantTurn(Some(TablesAnswer), None));
    RunQueryWithToolCalls(env, Ok([ListTables]), respond, model, maxTokens, "list my tables", TablesTurn);
    var parts := ["[Tool list_tables result: " + TablesJson + "]", TablesAnswer];
    assert Fragment(None) + batch.texts + Fragment(Some(TablesAnswer)) == parts;
    assert parts[..1] == [parts[0]];
    assert Join(parts) == parts[0] + "\n" + TablesAnswer;
  }

  /**
   * "hello": the first response is the text "Hi there!" without tool calls.
   * The output is exactly that text, after one completion call and no tool.
   */
  lemma HelloScenario(env: Env, listing: Result<seq<ToolDescriptor>, string>,
                      respond: (string, Json) -> ToolOutcome, model: string, maxTokens: nat)
    requires listing.Ok?
    requires env.complete(BuildRequest(model, maxTokens, [UserMessage("hello")], ConvertToolSchema(listing.value)), 1)
             == Responded(AssistantTurn(Some("Hi there!"), None))
    ensures var run := RunQuery(env, listing, respond, model, maxTokens, "hello");
      run.output == "Hi there!" && |run.requests| == 1 && run.invoked == []
  {
    QueryWithoutToolCalls(env, listing, respond, model, maxTokens, "hello");
  }

  /**
   * Arguments "{bad json": the dispatcher reports "Error parsing arguments ...",
   * fails, invokes no tool and appends no message.
   */
  lemma BadArgumentsScenario(env: Env, respond: (string, Json) -> ToolOutcome, id: string, name: string)
    requires env.loads("{bad json").Err?
    ensures var d := Dispatch(env, respond, ToolCall(id, "function", FunctionCall(name, "{bad json")));
      && "Error parsing arguments" <= d.texts[0]
      && !d.succeeded[0] && d.invoked == [] && d.appended == []
  {
  }
}

/**
 * The tool dispatcher: what one tool call does to the history, to the MCP
 * session and to the returned text, and what a batch of calls does, one after
 * the other in the order the model emitted them.
 */
module Dispatcher {
  import opened Types

  /** What dispatching one or more tool calls produces. */
  datatype Dispatched = Dispatched(
    texts: seq<string>,         // one result text per call
    succeeded: seq<bool>,       // one success flag per call
    invoked: seq<Invocation>,   // the MCP tool invocations made, in order
    appended: seq<Message>)     // the messages appended to the history, in order

  function ParseErrorText(name: string, error: string): string
  {
    "Error parsing arguments for " + name + ": " + error
  }

  function ToolErrorText(name: string, error: string): string
  {
    "Error executing tool " + name + ": " + error
  }

  function ResultAnnotation(name: string, content: string): string
  {
    "[Tool " + name + " result: " + content + "]"
  }

  /**
   * Normalisation of `result.content`: a string passes through verbatim;
   * anything else is JSON-encoded, or rendered with `str()` when encoding fails.
   */
  function ResultText(env: Env, content: ToolContent): (text: string)
    ensures content.StrContent? ==> text == content.text
    ensures content.OtherContent? ==>
      text == (if env.dumps(content.value).Some? then env.dumps(content.value).value else env.render(content.value))
  {
    match content
    case StrContent(s) => s
    case OtherContent(v) =>
      match env.dumps(v)
      case Some(s) => s
      case None => env.render(v)
  }

  /** `_execute_tool_call` on one call, given the session's tool oracle `respond`. */
  function Dispatch(env: Env, respond: (string, Json) -> ToolOutcome, call: ToolCall): (d: Dispatched)
    ensures |d.texts| == 1 && |d.succeeded| == 1
    ensures |d.invoked| == |d.appended| <= 1
    ensures d.invoked == [] <==> env.loads(call.fn.arguments).Err?
    ensures d.appended != [] ==> d.appended[0].ToolMessage? && d.appended[0].toolCallId == call.id
  {
    match env.loads(call.fn.arguments)
    case Err(e) => Dispatched([ParseErrorText(call.fn.name, e)], [false], [], [])
    case Ok(args) =>
      var invocation := Invocation(call.fn.name, args);
      match respond(call.fn.name, args)
      case Returned(content) =>
        var c := ResultText(env, content);
        Dispatched([ResultAnnotation(call.fn.name, c)], [true], [invocation], [ToolMessage(call.id, c)])
      case Raised(e) =>
        var msg := ToolErrorText(call.fn.name, e);
        Dispatched([msg], [false], [invocation], [ToolMessage(call.id, msg)])
  }

  /**
   * What `_execute_tool_call` does with one call. Arguments that do not
   * parse: the parse error text, failure, no invocation and NO message.
   * Otherwise exactly one invocation and exactly one tool message answering
   * the call's id: the normalised result and its annotation on success, the
   * same error text in message and result when the tool raises.
   */
  lemma DispatchOutcome(env: Env, respond: (string, Json) -> ToolOutcome, call: ToolCall)
    ensures var d := Dispatch(env, respond, call);
      && |d.texts| == 1 && |d.succeeded| == 1
      && (env.loads(call.fn.arguments).Err? ==>
            && d.texts[0] == ParseErrorText(call.fn.name, env.loads(call.fn.arguments).error)
            && !d.succeeded[0] && d.invoked == [] && d.appended == [])
      && (env.loads(call.fn.arguments).Ok? ==>
            var args := env.loads(call.fn.arguments).value;
            && d.invoked == [Invocation(call.fn.name, args)]
            && |d.appended| == 1 && d.appended[0].ToolMessage? && d.appended[0].toolCallId == call.id
            && d.succeeded[0] == respond(call.fn.name, args).Returned?
            && (respond(call.fn.name, args).Returned? ==>
                  var c := ResultText(env, respond(call.fn.name, args).content);
                  d.appended[0].content == c && d.texts[0] == ResultAnnotation(call.fn.name, c))
            && (respond(call.fn.name, args).Raised? ==>
                  d.appended[0].content == d.texts[0]
                  && d.texts[0] == ToolErrorText(call.fn.name, respond(call.fn.name, args).error)))
  {
  }

  /** Sequential composition: everything the first produced, then everything the second did. */
  function Then(a: Dispatched, b: Dispatched): Dispatched
  {
    Dispatched(a.texts + b.texts, a.succeeded + b.succeeded, a.invoked + b.invoked, a.appended + b.appended)
  }

  /** Dispatching a batch of calls in order, with no short-circuiting. */
  function DispatchAll(env: Env, respond: (string, Json) -> ToolOutcome, calls: seq<ToolCall>): (b: Dispatched)
    ensures |b.texts| == |calls| && |b.succeeded| == |calls|
    ensures |b.invoked| == |b.appended| <= |calls|
  {
    if calls == [] then Dispatched([], [], [], [])
    else Then(DispatchAll(env, respond, calls[..|calls| - 1]), Dispatch(env, respond, calls[|calls| - 1]))
  }

  /** Dispatching one more call extends the batch by exactly that call's effects. */
  lemma DispatchAllSnoc(env: Env, respond: (string, Json) -> ToolOutcome, calls: seq<ToolCall>, i: nat)
    requires i < |calls|
    ensures DispatchAll(env, respond, calls[..i + 1])
      == Then(DispatchAll(env, respond, calls[..i]), Dispatch(env, respond, calls[i]))
  {
    assert calls[..i + 1][..i] == calls[..i];
  }

  /** The calls of a batch whose arguments parse, in emitted order. */
  function Parsed(env: Env, calls: seq<ToolCall>): seq<ToolCall>
  {
    if calls == [] then []
    else if env.loads(calls[|calls| - 1].fn.arguments).Ok? then Parsed(env, calls[..|calls| - 1]) + [calls[|calls| - 1]]
    else Parsed(env, calls[..|calls| - 1])
  }

  /**
   * Every call of a batch gets its own result text and success flag, in the
   * order of the calls, each exactly what dispatching that call alone gives:
   * an earlier failure changes nothing for a later call.
   */
  lemma {:induction false} DispatchAllResults(env: Env, respond: (string, Json) -> ToolOutcome, calls: seq<ToolCall>)
    ensures var b := DispatchAll(env, respond, calls);
      && |b.texts| == |calls| && |b.succeeded| == |calls|
      && forall i :: 0 <= i < |calls| ==>
           b.texts[i] == Dispatch(env, respond, calls[i]).texts[0]
           && b.succeeded[i] == Dispatch(env, respond, calls[i]).succeeded[0]
  {
    if calls != [] {
      var init := calls[..|calls| - 1];
      DispatchAllResults(env, respond, init);
      DispatchOutcome(env, respond, calls[|calls| - 1]);
      forall i | 0 <= i < |init|
        ensures init[i] == calls[i]
      {
      }
    }
  }

  /**
   * The tool messages a batch appends, and the tool invocations it makes,
   * correspond one for one and in order to the calls whose arguments parse:
   * the k-th message answers the k-th such call's id and the k-th invocation
   * passes that call's name and parsed arguments.
   */
  lemma {:induction false} DispatchAllReplies(env: Env, respond: (string, Json) -> ToolOutcome, calls: seq<ToolCall>)
    ensures var b, p := DispatchAll(env, respond, calls), Parsed(env, calls);
      && |b.appended| == |p| && |b.invoked| == |p|
      && forall k :: 0 <= k < |p| ==>
           && b.appended[k].ToolMessage? && b.appended[k].toolCallId == p[k].id
           && env.loads(p[k].fn.arguments).Ok?
           && b.invoked[k] == Invocation(p[k].fn.name, env.loads(p[k].fn.arguments).value)
  {
    if calls != [] {
      DispatchAllReplies(env, respond, calls[..|calls| - 1]);
    }
  }

  /**
   * The calls whose arguments parse: no more of them than the batch has,
   * each one a call of the batch, and all of it exactly when every call's
   * arguments parse.
   */
  lemma {:induction false} ParsedSubsequence(env: Env, calls: seq<ToolCall>)
    ensures |Parsed(env, calls)| <= |calls|
    ensures forall k :: 0 <= k < |Parsed(env, calls)| ==> Parsed(env, calls)[k] in calls
    ensures |Parsed(env, calls)| == |calls| <==> forall i :: 0 <= i < |calls| ==> env.loads(calls[i].fn.arguments).Ok?
    ensures |Parsed(env, calls)| == |calls| ==> Parsed(env, calls) == calls
  {
    if calls != [] {
      var init := calls[..|calls| - 1];
      ParsedSubsequence(env, init);
      assert calls == init + [calls[|calls| - 1]];
      assert forall i :: 0 <= i < |init| ==> init[i] == calls[i];
    }
  }

  /** The calls that parse keep the batch's order: they sit at increasing positions of it. */
  lemma {:induction false} ParsedInOrder(env: Env, calls: seq<ToolCall>)
    ensures exists idx: seq<nat> :: IsSubsequenceAt(Parsed(env, calls), calls, idx)
  {
    if calls == [] {
      var none: seq<nat> := [];
      assert IsSubsequenceAt(Parsed(env, calls), calls, none);
    } else {
      var init := calls[..|calls| - 1];
      ParsedInOrder(env, init);
      var idx :| IsSubsequenceAt(Parsed(env, init), init, idx);
      var last := |calls| - 1;
      if env.loads(calls[last].fn.arguments).Ok? {
        var idx' := idx + [last];
        assert Parsed(env, calls) == Parsed(env, init) + [calls[last]];
        forall k | 0 <= k < |idx'|
          ensures idx'[k] < |calls| && Parsed(env, calls)[k] == calls[idx'[k]]
        {
          if k < |idx| {
            assert init[idx[k]] == calls[idx[k]];
          }
        }
        assert IsSubsequenceAt(Parsed(env, calls), calls, idx');
      } else {
        forall k | 0 <= k < |idx|
          ensures idx[k] < |calls| && Parsed(env, calls)[k] == calls[idx[k]]
        {
          assert init[idx[k]] == calls[idx[k]];
        }
        assert IsSubsequenceAt(Parsed(env, calls), calls, idx);
      }
    }
  }

  /** `sub` is `s` at the strictly increasing positions `idx`. */
  predicate IsSubsequenceAt(sub: seq<ToolCall>, s: seq<ToolCall>, idx: seq<nat>)
  {
    && |idx| == |sub|
    && (forall k :: 0 <= k < |idx| ==> idx[k] < |s| && sub[k] == s[idx[k]])
    && (forall k, l :: 0 <= k < l < |idx| ==> idx[k] < idx[l])
  }

  /** Each call of `calls` is answered, in order, by the tool message at the same position of `replies`. */
  predicate EveryCallAnswered(calls: seq<ToolCall>, replies: seq<Message>)
  {
    && |replies| == |calls|
    && forall i :: 0 <= i < |calls| ==> replies[i].ToolMessage? && replies[i].toolCallId == calls[i].id
  }

  /** `id` is the id of some call of `calls`. */
  predicate IsCallId(id: string, calls: seq<ToolCall>)
  {
    exists i :: 0 <= i < |calls| && calls[i].id == id
  }

  /** Every tool message a batch appends answers some call of the batch. */
  lemma RepliesAnswerBatchCalls(env: Env, respond: (string, Json) -> ToolOutcome, calls: seq<ToolCall>)
    ensures var replies := DispatchAll(env, respond, calls).appended;
      forall k :: 0 <= k < |replies| ==> replies[k].ToolMessage? && IsCallId(replies[k].toolCallId, calls)
  {
    DispatchAllReplies(env, respond, calls);
    ParsedSubsequence(env, calls);
    var replies, p := DispatchAll(env, respond, calls).appended, Parsed(env, calls);
    forall k | 0 <= k < |replies|
      ensures replies[k].ToolMessage? && IsCallId(replies[k].toolCallId, calls)
    {
      assert replies[k].toolCallId == p[k].id;
      assert p[k] in calls;
      var i :| 0 <= i < |calls| && calls[i] == p[k];
    }
  }

  /**
   * A batch answers every one of its calls, in order, exactly when the
   * arguments of every call parse: a call whose arguments do not parse is
   * left without a tool message.
   */
  lemma AnsweredIffAllParse(env: Env, respond: (string, Json) -> ToolOutcome, calls: seq<ToolCall>)
    ensures EveryCallAnswered(calls, DispatchAll(env, respond, calls).appended) <==>
      forall i :: 0 <= i < |calls| ==> env.loads(calls[i].fn.arguments).Ok?
  {
    DispatchAllReplies(env, respond, calls);
    ParsedSubsequence(env, calls);
    var replies, p := DispatchAll(env, respond, calls).appended, Parsed(env, calls);
    if EveryCallAnswered(calls, replies) {
      assert |p| == |calls|;
    }
    if forall i :: 0 <= i < |calls| ==> env.loads(calls[i].fn.arguments).Ok? {
      assert p == calls;
    }
  }
}

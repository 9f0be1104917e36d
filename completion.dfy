/**
 * The retrying completion caller: which keyword arguments a request carries,
 * and which response (or error) three attempts at it yield.
 */
module Completion {
  import opened Types

  /** The retry decorator stops after this many attempts. */
  const MaxAttempts: nat := 3

  /** The `tool_choice` sent together with a non-empty tool list. */
  const AutoChoice: string := "auto"

  /**
   * The keyword arguments of `_make_groq_api_call`: model, messages and the
   * token limit always; `tools` and `tool_choice = "auto"` exactly when the
   * tool list is non-empty (an absent list and an empty one are both falsy).
   */
  function BuildRequest(model: string, maxTokens: nat, messages: seq<Message>, tools: seq<ToolDecl>): (req: Request)
    ensures req.model == model && req.messages == messages && req.maxTokens == maxTokens
    ensures req.tools.Some? <==> tools != []
    ensures req.toolChoice.Some? <==> tools != []
    ensures req.tools.Some? ==> req.tools.value == tools && req.toolChoice == Some("auto")
  {
    if tools == [] then Request(model, messages, maxTokens, None, None)
    else Request(model, messages, maxTokens, Some(tools), Some(AutoChoice))
  }

  /**
   * The outcome of the retried call from attempt `k` on: the first response
   * among attempts k..3, or the exhaustion error built from the third failure.
   */
  function AttemptFrom(env: Env, req: Request, k: nat): (r: Result<AssistantTurn, string>)
    requires 1 <= k <= MaxAttempts
    ensures r.Err? <==> forall j :: k <= j <= MaxAttempts ==> env.complete(req, j).Failed?
    ensures r.Err? ==> r.error == env.exhausted(env.complete(req, MaxAttempts).error)
    decreases MaxAttempts - k
  {
    match env.complete(req, k)
    case Responded(turn) => Ok(turn)
    case Failed(e) => if k == MaxAttempts then Err(env.exhausted(e)) else AttemptFrom(env, req, k + 1)
  }

  /** The outcome of one retried completion call. */
  function Complete(env: Env, req: Request): (r: Result<AssistantTurn, string>)
    ensures r.Err? <==> forall j :: 1 <= j <= MaxAttempts ==> env.complete(req, j).Failed?
    ensures r.Ok? ==> env.complete(req, 1).Responded? ==> r.value == env.complete(req, 1).turn
  {
    AttemptFrom(env, req, 1)
  }

  /** Attempt `k` is the first of the retried call to get a response. */
  predicate FirstResponseAt(env: Env, req: Request, k: nat)
  {
    && 1 <= k <= MaxAttempts
    && env.complete(req, k).Responded?
    && forall j :: 1 <= j < k ==> env.complete(req, j).Failed?
  }

  lemma {:induction false} AttemptFromFirstResponse(env: Env, req: Request, k: nat)
    requires 1 <= k <= MaxAttempts
    requires forall j :: 1 <= j < k ==> env.complete(req, j).Failed?
    ensures AttemptFrom(env, req, k).Ok? <==> exists n :: k <= n && FirstResponseAt(env, req, n)
    ensures forall n :: k <= n && FirstResponseAt(env, req, n) ==>
      AttemptFrom(env, req, k) == Ok(env.complete(req, n).turn)
    ensures AttemptFrom(env, req, k).Err? ==>
      AttemptFrom(env, req, k) == Err(env.exhausted(env.complete(req, MaxAttempts).error))
    decreases MaxAttempts - k
  {
    if env.complete(req, k).Responded? {
      assert FirstResponseAt(env, req, k);
      forall n | k <= n && FirstResponseAt(env, req, n) ensures n == k {
      }
    } else if k < MaxAttempts {
      AttemptFromFirstResponse(env, req, k + 1);
      forall n | k <= n && FirstResponseAt(env, req, n) ensures k + 1 <= n {
      }
    } else {
      forall n | k <= n && FirstResponseAt(env, req, n) ensures false {
      }
    }
  }

  /**
   * A retried call succeeds exactly when one of the three attempts gets a
   * response, and then returns the first response; when all three fail it
   * yields the exhaustion error of the third failure.
   */
  lemma CompleteIsFirstResponse(env: Env, req: Request)
    ensures Complete(env, req).Ok? <==> exists n :: FirstResponseAt(env, req, n)
    ensures forall n :: FirstResponseAt(env, req, n) ==> Complete(env, req) == Ok(env.complete(req, n).turn)
    ensures Complete(env, req).Err? <==>
      forall j :: 1 <= j <= MaxAttempts ==> env.complete(req, j).Failed?
    ensures Complete(env, req).Err? ==>
      Complete(env, req) == Err(env.exhausted(env.complete(req, MaxAttempts).error))
  {
    AttemptFromFirstResponse(env, req, 1);
    if forall j :: 1 <= j <= MaxAttempts ==> env.complete(req, j).Failed? {
      forall n | FirstResponseAt(env, req, n) ensures false {
      }
    } else {
      var j :| 1 <= j <= MaxAttempts && env.complete(req, j).Responded?;
      FirstResponseExists(env, req, j);
    }
  }

  /** If some attempt up to the third responds, some attempt is the first to respond. */
  lemma {:induction false} FirstResponseExists(env: Env, req: Request, j: nat)
    requires 1 <= j <= MaxAttempts && env.complete(req, j).Responded?
    ensures exists n :: FirstResponseAt(env, req, n)
    decreases j
  {
    if forall i :: 1 <= i < j ==> env.complete(req, i).Failed? {
      assert FirstResponseAt(env, req, j);
    } else {
      var i :| 1 <= i < j && env.complete(req, i).Responded?;
      FirstResponseExists(env, req, i);
    }
  }
}

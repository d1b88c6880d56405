/**
 * The task service: the bounded observation loop that asks the reasoning
 * engine for a decision, runs the chosen tool, records what happened, and
 * turns the final decision, an error or the step limit into a response.
 */
module TaskService {
  import opened Wrappers
  import opened Values
  import opened Schemas
  import opened ToolsBase
  import opened Dispatcher
  import Tools
  import Orders
  import Reasoning

  /** The most reasoning steps one task may take. */
  const MaxIterations: nat := 5

  /** The texts of the service's own messages. */
  const MissingToolCall := "Agent decided to use a tool but didn't specify which one."
  const StepLimitMessage := "I was unable to complete the task within the allowed steps."
  const ReasoningFailedMessage := "I encountered an error while processing your request."
  const UnexpectedMessage := "An unexpected error occurred."

  /** The reasoning engine: a decision for the task and the observations so far, or the exception it raised. */
  type Oracle = (TaskInput, Option<seq<Observation>>) -> Result<AgentDecision, Exception>

  /** The observations as the loop passes them: none at all is `None`. */
  function Passed(obs: seq<Observation>): (p: Option<seq<Observation>>)
    ensures p.None? <==> obs == []
    ensures p.Some? ==> p.value == obs
  {
    if obs == [] then None else Some(obs)
  }

  /**
   * The status a terminal decision maps to; only a tool decision, which
   * never reaches the mapping, would fall back to `Failed`.
   */
  function StatusFor(t: DecisionType): (s: ResponseStatus)
    ensures s == Failed <==> t == UseTool
    ensures s == Success <==> t == Respond
    ensures s == NeedsInput <==> t == Clarify
    ensures s == Escalated <==> t == Escalate
  {
    match t
    case Respond => Success
    case Clarify => NeedsInput
    case Escalate => Escalated
    case UseTool => Failed
  }

  /** One entry of the response's `tool_calls` list. */
  function ToolCallEntry(o: Observation): Object {
    map["tool" := JStr(o.toolName), "success" := JBool(o.success),
        "result" := OptObj(o.result), "error" := OptStr(o.error)]
  }

  /** Reads an observation back from a `tool_calls` entry, if it has that shape. */
  function ReadToolCallEntry(m: Object): Option<Observation> {
    if && "tool" in m && m["tool"].JStr?
       && "success" in m && m["success"].JBool?
       && "result" in m && (m["result"].JNull? || m["result"].JObj?)
       && "error" in m && (m["error"].JNull? || m["error"].JStr?)
    then
      Some(Observation(
        m["tool"].s, m["success"].b,
        if m["result"].JNull? then None else Some(m["result"].fields),
        if m["error"].JNull? then None else Some(m["error"].s)))
    else None
  }

  /** A `tool_calls` entry loses nothing of its observation. */
  lemma ToolCallEntryRoundTrip(o: Observation)
    ensures ReadToolCallEntry(ToolCallEntry(o)) == Some(o)
  {
  }

  /** The `tool_calls` list: one entry per observation, in order. */
  function ToolCallEntries(obs: seq<Observation>): (items: seq<Json>)
    ensures |items| == |obs|
    ensures forall i :: 0 <= i < |obs| ==> items[i].JObj? && ReadToolCallEntry(items[i].fields) == Some(obs[i])
  {
    seq(|obs|, i requires 0 <= i < |obs| => JObj(ToolCallEntry(obs[i])))
  }

  /** The `observations` list of the step-limit response: each observation dumped, in order. */
  function ObservationDumps(obs: seq<Observation>): (items: seq<Json>)
    ensures |items| == |obs|
    ensures forall i :: 0 <= i < |obs| ==> items[i].JObj? && LoadObservation(items[i].fields) == Some(obs[i])
  {
    seq(|obs|, i requires 0 <= i < |obs| => JObj(DumpObservation(obs[i])))
  }

  /**
   * `_decision_to_response`: the status of the decision type, the decision's
   * message or "" when it has none, and data holding the reasoning and, when
   * any tools ran, one `tool_calls` entry per observation.
   */
  function DecisionToResponse(d: AgentDecision, obs: seq<Observation>): (r: AgentResponse)
    ensures r.status == StatusFor(d.decisionType)
    ensures r.message == (if d.message.Some? then d.message.value else "")
    ensures r.data.Some? && "reasoning" in r.data.value && r.data.value["reasoning"] == JStr(d.reasoning)
    ensures "tool_calls" in r.data.value <==> obs != []
    ensures r.data.value.Keys <= {"reasoning", "tool_calls"}
    ensures obs != [] ==> r.data.value["tool_calls"] == JArr(ToolCallEntries(obs))
  {
    var data := map["reasoning" := JStr(d.reasoning)];
    var data := if obs != [] then data["tool_calls" := JArr(ToolCallEntries(obs))] else data;
    AgentResponse(StatusFor(d.decisionType), d.message.GetOr(""), Some(data))
  }

  /**
   * The response when the step limit is reached: failed, with the number of
   * iterations and every observation dumped in order.
   */
  function StepLimitResponse(iterations: nat, obs: seq<Observation>): (r: AgentResponse)
    ensures r.status == Failed && r.message == StepLimitMessage
    ensures r.data.Some? && r.data.value.Keys == {"iterations", "observations"}
    ensures r.data.value["iterations"] == JInt(iterations)
    ensures r.data.value["observations"] == JArr(ObservationDumps(obs))
  {
    AgentResponse(Failed, StepLimitMessage,
      Some(map["iterations" := JInt(iterations), "observations" := JArr(ObservationDumps(obs))]))
  }

  /**
   * The two `except` clauses of the loop: a `ValueError` is reported as a
   * processing error, any other exception as unexpected; both are failures
   * carrying `str(e)`.
   */
  function FailureResponse(e: Exception): (r: AgentResponse)
    ensures r.status == Failed
    ensures r.message == ReasoningFailedMessage <==> e.ValueError?
    ensures r.message == UnexpectedMessage <==> !e.ValueError?
    ensures r.data == Some(map["error" := JStr(e.message)])
  {
    if e.ValueError? then AgentResponse(Failed, ReasoningFailedMessage, Some(map["error" := JStr(e.message)]))
    else AgentResponse(Failed, UnexpectedMessage, Some(map["error" := JStr(e.message)]))
  }

  /** How a task's loop ended. */
  datatype Ending = Decided(decision: AgentDecision) | Raised(error: Exception) | Exhausted

  /** The observations a task gathered and how its loop ended. */
  datatype Trace = Trace(observations: seq<Observation>, ending: Ending)

  /** The response a finished loop returns. */
  function Conclude(t: Trace): AgentResponse {
    match t.ending
    case Decided(d) => DecisionToResponse(d, t.observations)
    case Raised(e) => FailureResponse(e)
    case Exhausted => StepLimitResponse(|t.observations|, t.observations)
  }

  /**
   * The service as configured at start-up: the tool registry, the reasoning
   * engine, and the executor used for each successive dispatch of a task
   * (`executors(k)` runs the k-th tool call, so a tool drawing random order
   * ids may draw differently each time).
   */
  datatype Service = Service(registry: Table, reason: Oracle, executors: nat -> Executor) {

    /**
     * `_execute_and_observe` for the k-th tool call: a tool decision without
     * a tool call is a failed "unknown" observation; otherwise the call is
     * dispatched and its result recorded under the tool's name.
     */
    function ExecuteAndObserve(d: AgentDecision, k: nat): (o: Observation)
      ensures d.toolCall.None? ==> o == Observation("unknown", false, None, Some(MissingToolCall))
      ensures d.toolCall.Some? ==>
        var r := DispatchTool(registry, d.toolCall.value, executors(k));
        o.toolName == d.toolCall.value.toolName && o.success == r.success && o.result == r.data && o.error == r.error
    {
      match d.toolCall
      case None => Observation("unknown", false, None, Some(MissingToolCall))
      case Some(call) =>
        var result := DispatchTool(registry, call, executors(k));
        Observation(call.toolName, result.success, result.data, result.error)
    }

    /**
     * The loop from the point where `obs` have been gathered. The history
     * only grows and never exceeds the step limit; the loop is exhausted
     * exactly when the limit is reached, and a decision that ends it is
     * terminal.
     */
    function Execution(task: TaskInput, obs: seq<Observation>): (t: Trace)
      requires |obs| <= MaxIterations
      ensures |obs| <= |t.observations| <= MaxIterations
      ensures t.observations[..|obs|] == obs
      ensures t.ending.Exhausted? <==> |t.observations| == MaxIterations
      ensures t.ending.Decided? ==> t.ending.decision.decisionType.IsTerminal()
      decreases MaxIterations - |obs|
    {
      if |obs| == MaxIterations then Trace(obs, Exhausted)
      else
        match reason(task, Passed(obs))
        case Err(e) => Trace(obs, Raised(e))
        case Ok(d) =>
          if d.decisionType.IsTerminal() then Trace(obs, Decided(d))
          else
            var t := Execution(task, obs + [ExecuteAndObserve(d, |obs|)]);
            assert t.observations[..|obs|] == (obs + [ExecuteAndObserve(d, |obs|)])[..|obs|];
            t
    }

    /**
     * Step k of a history: the engine, shown the first k observations,
     * chose a tool, and observation k is what running that decision gave.
     */
    predicate StepTaken(task: TaskInput, h: seq<Observation>, k: nat)
      requires k < |h|
    {
      var outcome := reason(task, Passed(h[..k]));
      && outcome.Ok? && outcome.value.decisionType == UseTool
      && h[k] == ExecuteAndObserve(outcome.value, k)
    }

    /**
     * Every recorded observation came from a tool decision the engine made
     * on the observations before it, and the loop ended on what the engine
     * said about the full history (a terminal decision or an exception).
     */
    lemma {:induction false} ExecutionSteps(task: TaskInput, obs: seq<Observation>)
      requires |obs| <= MaxIterations
      ensures var t := Execution(task, obs);
        && (forall k :: |obs| <= k < |t.observations| ==> StepTaken(task, t.observations, k))
        && (t.ending.Decided? ==> reason(task, Passed(t.observations)) == Ok(t.ending.decision))
        && (t.ending.Raised? ==> reason(task, Passed(t.observations)) == Err(t.ending.error))
      decreases MaxIterations - |obs|
    {
      if |obs| < MaxIterations {
        var outcome := reason(task, Passed(obs));
        if outcome.Ok? && !outcome.value.decisionType.IsTerminal() {
          var d := outcome.value;
          var next := obs + [ExecuteAndObserve(d, |obs|)];
          ExecutionSteps(task, next);
          var t := Execution(task, next);
          assert t == Execution(task, obs);
          assert t.observations[..|next|] == next;
          forall k | |obs| <= k < |t.observations|
            ensures StepTaken(task, t.observations, k)
          {
            if k == |obs| {
              assert t.observations[..k] == obs by {
                assert t.observations[..k] == t.observations[..|next|][..k];
              }
              assert t.observations[k] == next[k];
            }
          }
        }
      }
    }

    /**
     * `process_task`: the loop as written, with an iteration counter that
     * grows by one per reasoning step; it returns what `Conclude` gives for
     * the whole execution.
     */
    method ProcessTask(task: TaskInput) returns (response: AgentResponse)
      ensures response == Conclude(Execution(task, []))
    {
      var observations: seq<Observation> := [];
      var iteration: nat := 0;
      while iteration < MaxIterations
        invariant iteration == |observations| <= MaxIterations
        invariant Execution(task, observations) == Execution(task, [])
        decreases MaxIterations - iteration
      {
        iteration := iteration + 1;
        var outcome := reason(task, if observations != [] then Some(observations) else None);
        if outcome.Err? {
          return FailureResponse(outcome.error);
        }
        var decision := outcome.value;
        if decision.decisionType in {Respond, Clarify, Escalate} {
          return DecisionToResponse(decision, observations);
        }
        if decision.decisionType == UseTool {
          var observation := ExecuteAndObserve(decision, iteration - 1);
          observations := observations + [observation];
        }
      }
      response := StepLimitResponse(iteration, observations);
    }

    /** The response of a task. */
    function Response(task: TaskInput): AgentResponse {
      Conclude(Execution(task, []))
    }

    /**
     * A task fails exactly when the engine raised or the step limit was
     * reached; a terminal decision always yields success, needs-input or
     * escalated.
     */
    lemma {:induction false} FailsUnlessDecided(task: TaskInput)
      ensures Response(task).status == Failed <==> !Execution(task, []).ending.Decided?
    {
      var t := Execution(task, []);
      if t.ending.Decided? {
        assert t.ending.decision.decisionType.IsTerminal();
      }
    }

    /**
     * An engine that always asks for a tool makes the loop run the tool five
     * times and then give up with the step-limit response.
     */
    lemma {:induction false} EndlessToolUse(task: TaskInput)
      requires forall p: Option<seq<Observation>> :: reason(task, p).Ok? && reason(task, p).value.decisionType == UseTool
      ensures |Execution(task, []).observations| == MaxIterations
      ensures Response(task) == StepLimitResponse(MaxIterations, Execution(task, []).observations)
      ensures Response(task).data.value["iterations"] == JInt(5)
    {
      var t := Execution(task, []);
      ExecutionSteps(task, []);
      var last := reason(task, Passed(t.observations));
      assert last.Ok? && last.value.decisionType == UseTool;
    }

    /**
     * When the first decision is terminal no tool runs, and the response
     * carries no `tool_calls`.
     */
    lemma {:induction false} ImmediateDecision(task: TaskInput)
      requires reason(task, None).Ok? && reason(task, None).value.decisionType.IsTerminal()
      ensures Execution(task, []).observations == []
      ensures Response(task) == DecisionToResponse(reason(task, None).value, [])
      ensures "tool_calls" !in Response(task).data.value
    {
      assert Passed([]) == None;
    }

    /**
     * An exception from the engine ends the loop at once with a failure
     * carrying the exception's text; the observations gathered so far are
     * not reported.
     */
    lemma {:induction false} EngineErrorEnds(task: TaskInput, obs: seq<Observation>)
      requires |obs| < MaxIterations && reason(task, Passed(obs)).Err?
      ensures Execution(task, obs) == Trace(obs, Raised(reason(task, Passed(obs)).error))
      ensures Conclude(Execution(task, obs)).data == Some(map["error" := JStr(reason(task, Passed(obs)).error.message)])
    {
    }
  }

  /** The reasoning agent as the service's engine. */
  function AgentOracle(agent: Reasoning.ReasoningAgent): Oracle {
    (t: TaskInput, obs: Option<seq<Observation>>) => agent.Reason(t, obs)
  }

  /** The built-in tools run for every dispatch, with `suffixes(k)` the random part of the k-th order id. */
  function BuiltinExecutors(suffixes: nat -> Orders.OrderSuffix): nat -> Executor {
    (k: nat) => Tools.BuiltinExecutor(suffixes(k))
  }

  /**
   * With the built-in tools every observation is consistent: it carries an
   * error exactly when it failed, and a result exactly when it succeeded.
   */
  lemma {:induction false} BuiltinObservationsConsistent(
    registry: Table, reason: Oracle, suffixes: nat -> Orders.OrderSuffix, task: TaskInput)
    ensures var s := Service(registry, reason, BuiltinExecutors(suffixes));
      forall o :: o in s.Execution(task, []).observations ==>
        (o.success <==> o.error.None?) && (o.success <==> o.result.Some?)
  {
    var s := Service(registry, reason, BuiltinExecutors(suffixes));
    var h := s.Execution(task, []).observations;
    s.ExecutionSteps(task, []);
    forall k | 0 <= k < |h|
      ensures (h[k].success <==> h[k].error.None?) && (h[k].success <==> h[k].result.Some?)
    {
      assert s.StepTaken(task, h, k);
      var d := reason(task, Passed(h[..k])).value;
      if d.toolCall.Some? {
        BuiltinDispatchWellFormed(registry, d.toolCall.value, suffixes(k));
      }
    }
  }
}

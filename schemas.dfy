/**
 * The records and enumerations exchanged by the agent: task input, the
 * reasoning engine's decision, tool observations and the final response.
 * Defaults of optional fields are the constructors' default arguments.
 */
module Schemas {
  import opened Wrappers
  import opened Values

  /** What the agent receives: a task and optional context. */
  datatype TaskInput = TaskInput(task: string, context: Option<Object> := None)

  /** The four kinds of decision, with their wire values. */
  datatype DecisionType = UseTool | Respond | Clarify | Escalate {

    function Value(): string {
      match this
      case UseTool => "use_tool"
      case Respond => "respond"
      case Clarify => "clarify"
      case Escalate => "escalate"
    }

    /** Respond, clarify and escalate end the observation loop. */
    predicate IsTerminal() {
      !UseTool?
    }
  }

  /** `DecisionType(value)`: the member whose wire value is `value`, if any. */
  function DecisionTypeOf(value: string): (r: Option<DecisionType>)
    ensures forall t: DecisionType :: r == Some(t) <==> t.Value() == value
  {
    if value == "use_tool" then Some(UseTool)
    else if value == "respond" then Some(Respond)
    else if value == "clarify" then Some(Clarify)
    else if value == "escalate" then Some(Escalate)
    else None
  }

  /** Which tool to run, with which keyword arguments (none by default). */
  datatype ToolCall = ToolCall(toolName: string, arguments: Object := map[])

  /** One structured decision of the reasoning engine. */
  datatype AgentDecision = AgentDecision(
    decisionType: DecisionType,
    reasoning: string,
    toolCall: Option<ToolCall> := None,
    message: Option<string> := None)

  /** Outcome status of a task, with its wire values. */
  datatype ResponseStatus = Success | Failed | NeedsInput | Escalated {

    function Value(): string {
      match this
      case Success => "success"
      case Failed => "failed"
      case NeedsInput => "needs_input"
      case Escalated => "escalated"
    }
  }

  /** `ResponseStatus(value)`: the member whose wire value is `value`, if any. */
  function ResponseStatusOf(value: string): (r: Option<ResponseStatus>)
    ensures forall s: ResponseStatus :: r == Some(s) <==> s.Value() == value
  {
    if value == "success" then Some(Success)
    else if value == "failed" then Some(Failed)
    else if value == "needs_input" then Some(NeedsInput)
    else if value == "escalated" then Some(Escalated)
    else None
  }

  /** The final response of one task. */
  datatype AgentResponse = AgentResponse(
    status: ResponseStatus,
    message: string,
    data: Option<Object> := None)

  /** The loop's record of one tool invocation. */
  datatype Observation = Observation(
    toolName: string,
    success: bool,
    result: Option<Object> := None,
    error: Option<string> := None)

  /** `obs.model_dump()`: the observation as a JSON object. */
  function DumpObservation(o: Observation): Object {
    map["tool_name" := JStr(o.toolName), "success" := JBool(o.success),
        "result" := OptObj(o.result), "error" := OptStr(o.error)]
  }

  /** Reads an observation back from its dump, if the object has that shape. */
  function LoadObservation(m: Object): Option<Observation> {
    if && "tool_name" in m && m["tool_name"].JStr?
       && "success" in m && m["success"].JBool?
       && "result" in m && (m["result"].JNull? || m["result"].JObj?)
       && "error" in m && (m["error"].JNull? || m["error"].JStr?)
    then
      Some(Observation(
        m["tool_name"].s, m["success"].b,
        if m["result"].JNull? then None else Some(m["result"].fields),
        if m["error"].JNull? then None else Some(m["error"].s)))
    else None
  }

  /** A dumped observation keeps every field: loading it gives it back. */
  lemma DumpLoadRoundTrip(o: Observation)
    ensures LoadObservation(DumpObservation(o)) == Some(o)
  {
  }

  /** The HTTP request body of a task. */
  datatype TaskRequest = TaskRequest(task: string, context: Option<Object> := None) {

    /** The internal task input carries the request's task and context unchanged. */
    function ToTaskInput(): (t: TaskInput)
      ensures t.task == task && t.context == context
    {
      TaskInput(task, context)
    }
  }

  /** The HTTP response body of a task. */
  datatype TaskResponse = TaskResponse(
    status: ResponseStatus,
    message: string,
    data: Option<Object> := None)

  /** The API response carries the agent's status, message and data unchanged. */
  function FromAgentResponse(r: AgentResponse): (t: TaskResponse)
    ensures t.status == r.status && t.message == r.message && t.data == r.data
  {
    TaskResponse(r.status, r.message, r.data)
  }
}

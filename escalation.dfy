/** The human hand-off tool: validates a reason and a priority, opens a ticket. */
module Escalation {
  import opened Wrappers
  import opened Values
  import opened Strings
  import opened ToolsBase
  import opened Fields

  const EscalationTool := Tool(
    "escalate_to_human",
    "Escalate the current task to a human operator when the agent cannot proceed",
    true, EscalateToHuman)

  const Priorities := ["low", "normal", "high", "urgent"]

  /** The arguments the input model accepts. */
  predicate ValidEscalation(args: Object) {
    && "reason" in args && args["reason"].JStr? && |args["reason"].s| >= 10
    && ("priority" !in args || (args["priority"].JStr? && args["priority"].s in Priorities))
    && ("context" !in args || args["context"].JNull? || args["context"].JStr?)
  }

  /**
   * `EscalateToHumanTool.execute(**args)`: valid arguments yield the fixed
   * ticket "ESC-001" pending review, echoing reason and priority (default
   * "normal"); the optional context is accepted but not echoed. Anything else
   * fails as invalid input.
   */
  function Execute(args: Object): (r: ToolResult)
    ensures WellFormed(r)
    ensures r.success <==> ValidEscalation(args)
    ensures r.success ==> r.data == Some(map[
      "escalation_id" := JStr("ESC-001"),
      "reason" := args["reason"],
      "priority" := if "priority" in args then args["priority"] else JStr("normal"),
      "status" := JStr("pending_review"),
      "message" := JStr("Task has been escalated to a human operator")])
    ensures !r.success ==> r.error.Some? && StartsWith(r.error.value, "Invalid input: ")
  {
    match RequiredStringOfLength(args, "reason", 10, None)
    case Err(e) => InvalidInput("EscalateToHumanInput", e)
    case Ok(reason) =>
      match Choice(args, "priority", Priorities, "normal")
      case Err(e) => InvalidInput("EscalateToHumanInput", e)
      case Ok(priority) =>
        match OptionalString(args, "context")
        case Err(e) => InvalidInput("EscalateToHumanInput", e)
        case Ok(_) =>
          ToolResult(true, Some(map[
            "escalation_id" := JStr("ESC-001"),
            "reason" := JStr(reason),
            "priority" := JStr(priority),
            "status" := JStr("pending_review"),
            "message" := JStr("Task has been escalated to a human operator")]), None)
  }

  /** The context never reaches the result: the outcome does not depend on which string it is. */
  lemma ContextNotEchoed(args: Object, c1: string, c2: string)
    ensures Execute(args["context" := JStr(c1)]) == Execute(args["context" := JStr(c2)])
  {
  }
}

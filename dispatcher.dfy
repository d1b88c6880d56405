/**
 * The dispatcher: resolves a tool call against the registry, runs the tool
 * once, and turns every outcome into a tool result.
 */
module Dispatcher {
  import opened Wrappers
  import opened Values
  import opened Strings
  import opened Schemas
  import opened ToolsBase
  import Tools
  import Orders

  /**
   * `dispatch_tool(call)`: never raises. An unknown name, a `ToolError` and
   * any other exception each become a failed result; a result the tool
   * returns is passed through unchanged. The executor is applied at most
   * once, with no retry.
   */
  function DispatchTool(registry: Table, call: ToolCall, execute: Executor): (r: ToolResult)
    ensures call.toolName !in registry.tools ==>
      && !r.success && r.data.None?
      && r.error == Some("Unknown tool: " + call.toolName + ". Available: " + PyStrList(registry.ToolNames()))
    ensures call.toolName in registry.tools ==>
      match execute(registry.tools[call.toolName], call.arguments)
      case Ok(returned) => r == returned
      case Err(ToolError(m)) => !r.success && r.data.None? && r.error == Some(m)
      case Err(e) => !r.success && r.data.None? && r.error == Some("Tool execution failed: " + e.message)
  {
    match registry.GetOrRaise(call.toolName)
    case Err(e) => Caught(e)
    case Ok(tool) =>
      match execute(tool, call.arguments)
      case Ok(result) => result
      case Err(e) => Caught(e)
  }

  /** The two `except` clauses of the dispatcher. */
  function Caught(e: Exception): (r: ToolResult)
    ensures WellFormed(r) && !r.success
  {
    match e
    case ToolError(m) => ToolResult(false, None, Some(m))
    case _ => ToolResult(false, None, Some("Tool execution failed: " + e.message))
  }

  /**
   * With the built-in tools, every dispatch yields a well-formed result:
   * data on success, an error and no data on failure.
   */
  lemma BuiltinDispatchWellFormed(registry: Table, call: ToolCall, suffix: Orders.OrderSuffix)
    ensures WellFormed(DispatchTool(registry, call, Tools.BuiltinExecutor(suffix)))
  {
    if call.toolName in registry.tools {
      Tools.BuiltinExecutorOutcome(suffix, registry.tools[call.toolName], call.arguments);
    }
  }

  /**
   * A registered tool given arguments its input model rejects (here an order
   * quantity outside [1, 100]) yields a failed result, not an exception.
   */
  lemma InvalidArgumentsFail(args: Object, suffix: Orders.OrderSuffix)
    requires "self" !in args
    requires "quantity" in args && args["quantity"].JInt? && !(1 <= args["quantity"].n <= 100)
    ensures var r := DispatchTool(Tools.DefaultTable(), ToolCall("create_order", args), Tools.BuiltinExecutor(suffix));
      !r.success && r.error.Some? && StartsWith(r.error.value, "Invalid input: ")
  {
    Tools.DefaultRegistry();
    assert Tools.DefaultTable().tools["create_order"] == Orders.OrderTool;
  }
}

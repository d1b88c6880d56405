/**
 * The built-in tools and the registry the application builds from them at
 * start-up.
 */
module Tools {
  import opened Wrappers
  import opened Values
  import opened ToolsBase
  import Pricing
  import Orders
  import Notifications
  import Escalation

  /** The tools in the order they are registered. */
  const BuiltinTools: seq<Tool> := [
    Pricing.PricingTool, Orders.OrderTool,
    Notifications.NotificationTool, Escalation.EscalationTool]

  /** The Python class implementing each kind of tool. */
  function ClassName(kind: ToolKind): string {
    match kind
    case GetPricing => "GetPricingTool"
    case CreateOrder => "CreateOrderTool"
    case SendNotification => "SendNotificationTool"
    case EscalateToHuman => "EscalateToHumanTool"
  }

  /**
   * The `execute` method of the tool's class; `suffix` stands for the random
   * part of a new order id. Every built-in tool reports its failures in its
   * result instead of raising.
   */
  function RunTool(tool: Tool, args: Object, suffix: Orders.OrderSuffix): (r: ToolResult)
    ensures WellFormed(r)
  {
    match tool.kind
    case GetPricing => Pricing.Execute(args)
    case CreateOrder => Orders.Execute(args, suffix)
    case SendNotification => Notifications.Execute(args)
    case EscalateToHuman => Escalation.Execute(args)
  }

  /**
   * `tool.execute(**args)` on a built-in tool. A keyword argument named
   * "self" collides with the bound instance, so Python raises a `TypeError`
   * before the method body runs; otherwise the method returns its result.
   */
  function BuiltinExecutor(suffix: Orders.OrderSuffix): Executor {
    (tool: Tool, args: Object) =>
      if "self" in args then
        Err(OtherError("TypeError", ClassName(tool.kind) + ".execute() got multiple values for argument 'self'"))
      else Ok(RunTool(tool, args, suffix))
  }

  /** The built-in executor raises only for a "self" argument, and otherwise returns a well-formed result. */
  lemma BuiltinExecutorOutcome(suffix: Orders.OrderSuffix, tool: Tool, args: Object)
    ensures BuiltinExecutor(suffix)(tool, args).Err? <==> "self" in args
    ensures BuiltinExecutor(suffix)(tool, args).Ok? ==> WellFormed(BuiltinExecutor(suffix)(tool, args).value)
  {
  }

  /** The registry contents after the four start-up registrations. */
  function DefaultTable(): Table {
    EmptyTable
      .Register(Pricing.PricingTool)
      .Register(Orders.OrderTool)
      .Register(Notifications.NotificationTool)
      .Register(Escalation.EscalationTool)
  }

  /** Builds the application registry by registering the four tools in turn. */
  method CreateRegistry() returns (registry: ToolRegistry)
    ensures fresh(registry) && registry.Valid()
    ensures registry.Model() == DefaultTable()
  {
    registry := new ToolRegistry();
    registry.Register(Pricing.PricingTool);
    registry.Register(Orders.OrderTool);
    registry.Register(Notifications.NotificationTool);
    registry.Register(Escalation.EscalationTool);
  }

  /** The names the four tools are registered under, in order. */
  const DefaultNames := ["get_pricing", "create_order", "send_notification", "escalate_to_human"]

  /** The four registrations, unfolded. */
  lemma DefaultTableContents()
    ensures DefaultTable() == Table(map[
      "get_pricing" := Pricing.PricingTool, "create_order" := Orders.OrderTool,
      "send_notification" := Notifications.NotificationTool,
      "escalate_to_human" := Escalation.EscalationTool], DefaultNames)
  {
    var t1 := EmptyTable.Register(Pricing.PricingTool);
    assert t1.names == DefaultNames[..1];
    var t2 := t1.Register(Orders.OrderTool);
    assert t2.names == DefaultNames[..2];
    var t3 := t2.Register(Notifications.NotificationTool);
    assert t3.names == DefaultNames[..3];
  }

  /**
   * The start-up registry holds exactly the four tools, none overwriting
   * another, listed in registration order.
   */
  lemma DefaultRegistry()
    ensures DefaultTable().Valid()
    ensures DefaultTable().ToolNames() == DefaultNames && |DefaultNames| == 4
    ensures forall i :: 0 <= i < 4 ==> DefaultTable().Get(DefaultNames[i]) == Some(BuiltinTools[i])
  {
    var t1 := EmptyTable.Register(Pricing.PricingTool);
    var t2 := t1.Register(Orders.OrderTool);
    var t3 := t2.Register(Notifications.NotificationTool);
    EmptyTableValid();
    RegisterValid(EmptyTable, Pricing.PricingTool);
    RegisterValid(t1, Orders.OrderTool);
    RegisterValid(t2, Notifications.NotificationTool);
    RegisterValid(t3, Escalation.EscalationTool);
    DefaultTableContents();
    DefaultLookups();
  }

  /** Each default name looks up the tool registered under it. */
  lemma DefaultLookups()
    ensures forall i :: 0 <= i < 4 ==> DefaultTable().Get(DefaultNames[i]) == Some(BuiltinTools[i])
  {
    DefaultTableContents();
    var m := DefaultTable().tools;
    assert m["get_pricing"] == Pricing.PricingTool;
    assert m["create_order"] == Orders.OrderTool;
    assert m["send_notification"] == Notifications.NotificationTool;
    assert m["escalate_to_human"] == Escalation.EscalationTool;
  }

  /** Of the registered tools only the price lookup is free of side effects. */
  lemma OnlyPricingIsReadOnly(name: string)
    requires DefaultTable().Get(name).Some?
    ensures !DefaultTable().Get(name).value.hasSideEffects <==> name == "get_pricing"
  {
  }
}

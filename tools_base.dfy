/**
 * The tool interface and the registry: the closed, insertion-ordered set of
 * capabilities the agent may invoke by name.
 */
module ToolsBase {
  import opened Wrappers
  import opened Values
  import opened Strings

  /** The uniform outcome of one tool execution. */
  datatype ToolResult = ToolResult(
    success: bool,
    data: Option<Object> := None,
    error: Option<string> := None)

  /** A result of the documented shape: data on success, an error and no data on failure. */
  predicate WellFormed(r: ToolResult) {
    if r.success then r.data.Some? && r.error.None? else r.data.None? && r.error.Some?
  }

  /** The concrete tool classes of the system. */
  datatype ToolKind = GetPricing | CreateOrder | SendNotification | EscalateToHuman

  /** The metadata a tool publishes for the prompt (`get_schema()`); a key may be absent. */
  datatype ToolSchema = ToolSchema(
    name: Option<string>,
    description: Option<string>,
    hasSideEffects: Option<bool>)

  /** A tool instance: its name, description, side-effect flag and class. */
  datatype Tool = Tool(name: string, description: string, hasSideEffects: bool, kind: ToolKind) {

    /** `get_schema()`: exactly the name, description and side-effect flag. */
    function GetSchema(): (s: ToolSchema)
      ensures s.name == Some(name) && s.description == Some(description)
      ensures s.hasSideEffects == Some(hasSideEffects)
    {
      ToolSchema(Some(name), Some(description), Some(hasSideEffects))
    }
  }

  /**
   * `tool.execute(**arguments)`: the result the tool returns, or the exception
   * it raises.
   */
  type Executor = (Tool, Object) -> Result<ToolResult, Exception>

  /**
   * The contents of a registry: a dict from name to tool together with the
   * order in which each name was first inserted (the dict's iteration order).
   */
  datatype Table = Table(tools: map<string, Tool>, names: seq<string>) {

    /** The names are distinct, are exactly the keys, and each tool sits under its own name. */
    ghost predicate Valid() {
      && (forall i, j :: 0 <= i < j < |names| ==> names[i] != names[j])
      && (forall n :: n in tools <==> n in names)
      && (forall n :: n in tools ==> tools[n].name == n)
    }

    /** `register(tool)`: insert under the tool's name, last write wins. */
    function Register(tool: Tool): Table {
      Table(tools[tool.name := tool], if tool.name in tools then names else names + [tool.name])
    }

    /** `get(name)`. */
    function Get(name: string): Option<Tool> {
      if name in tools then Some(tools[name]) else None
    }

    /** `get_or_raise(name)`. */
    function GetOrRaise(name: string): Result<Tool, Exception> {
      if name in tools then Ok(tools[name])
      else Err(ToolError("Unknown tool: " + name + ". Available: " + PyStrList(names)))
    }

    /** `list_tools()`: the schemas in insertion order. */
    function ListTools(): seq<ToolSchema>
      requires Valid()
    {
      seq(|names|, i requires 0 <= i < |names| => tools[names[i]].GetSchema())
    }

    /** `tool_names`. */
    function ToolNames(): seq<string> {
      names
    }
  }

  /** The empty registry. */
  const EmptyTable := Table(map[], [])

  lemma EmptyTableValid()
    ensures EmptyTable.Valid()
  {
  }

  /** Registering keeps the registry consistent. */
  lemma RegisterValid(t: Table, tool: Tool)
    requires t.Valid()
    ensures t.Register(tool).Valid()
  {
    var r := t.Register(tool);
    if tool.name !in t.tools {
      forall i, j | 0 <= i < j < |r.names| ensures r.names[i] != r.names[j] {
        if j == |t.names| {
          assert r.names[j] == tool.name && r.names[i] == t.names[i];
        }
      }
    }
  }

  /**
   * After `register(tool)` a lookup of its name finds it, whether or not the
   * name was taken (last write wins), and every other name looks up as before.
   */
  lemma RegisterGet(t: Table, tool: Tool, name: string)
    ensures t.Register(tool).Get(tool.name) == Some(tool)
    ensures name != tool.name ==> t.Register(tool).Get(name) == t.Get(name)
  {
  }

  /**
   * Registration order: a new name goes last, a re-registered name keeps its
   * place, so the listing's length and order do not change.
   */
  lemma RegisterOrder(t: Table, tool: Tool)
    ensures tool.name in t.tools ==> t.Register(tool).ToolNames() == t.ToolNames()
    ensures tool.name !in t.tools ==> t.Register(tool).ToolNames() == t.ToolNames() + [tool.name]
  {
  }

  /**
   * `get_or_raise` agrees with `get` on registered names, and otherwise raises
   * a `ToolError` naming the requested name and the registered names.
   */
  lemma GetOrRaiseAgreesWithGet(t: Table, name: string)
    ensures t.Get(name).Some? ==> t.GetOrRaise(name) == Ok(t.Get(name).value)
    ensures t.Get(name).None? ==>
      t.GetOrRaise(name) == Err(ToolError("Unknown tool: " + name + ". Available: " + PyStrList(t.ToolNames())))
  {
  }

  /** `get` finds exactly the registered names. */
  lemma GetRegistered(t: Table, name: string)
    requires t.Valid()
    ensures t.Get(name).Some? <==> name in t.ToolNames()
  {
  }

  /** `list_tools()` has one schema per registered name, in registration order. */
  lemma ListToolsOrder(t: Table)
    requires t.Valid()
    ensures |t.ListTools()| == |t.ToolNames()|
    ensures forall i :: 0 <= i < |t.ToolNames()| ==>
      t.ListTools()[i].name == Some(t.ToolNames()[i])
  {
    forall i | 0 <= i < |t.ToolNames()|
      ensures t.ListTools()[i].name == Some(t.ToolNames()[i])
    {
      assert t.names[i] in t.tools;
      assert t.ListTools()[i] == t.tools[t.names[i]].GetSchema();
    }
  }

  /**
   * The registry as an object whose dict `register` mutates in place. The
   * queries are methods on the object, as in the source; each reads the
   * current fields and agrees with the same query on `Model()`, the value
   * the lemmas above are about.
   */
  class ToolRegistry {
    var tools: map<string, Tool>
    var names: seq<string>

    /** The registry's contents as a value. */
    function Model(): Table
      reads this
    {
      Table(tools, names)
    }

    ghost predicate Valid()
      reads this
    {
      Model().Valid()
    }

    /** A registry with no tools. */
    constructor ()
      ensures Valid() && Model() == EmptyTable
    {
      tools := map[];
      names := [];
    }

    /** `register(tool)`. */
    method Register(tool: Tool)
      requires Valid()
      modifies this
      ensures Valid()
      ensures Model() == old(Model()).Register(tool)
    {
      RegisterValid(Model(), tool);
      if tool.name !in tools {
        names := names + [tool.name];
      }
      tools := tools[tool.name := tool];
    }

    /** `get(name)`. */
    method Get(name: string) returns (tool: Option<Tool>)
      ensures tool == Model().Get(name)
    {
      tool := if name in tools then Some(tools[name]) else None;
    }

    /** `get_or_raise(name)`. */
    method GetOrRaise(name: string) returns (tool: Result<Tool, Exception>)
      ensures tool == Model().GetOrRaise(name)
    {
      var found := Get(name);
      if found.None? {
        var available := names;
        return Err(ToolError("Unknown tool: " + name + ". Available: " + PyStrList(available)));
      }
      return Ok(found.value);
    }

    /** `list_tools()`. */
    method ListTools() returns (schemas: seq<ToolSchema>)
      requires Valid()
      ensures schemas == Model().ListTools()
    {
      var contents := Model();
      schemas := contents.ListTools();
    }

    /** `tool_names`. */
    method ToolNames() returns (result: seq<string>)
      ensures result == Model().ToolNames()
    {
      result := names;
    }
  }
}

/**
 * The values that cross the agent's boundaries: decoded JSON, the exceptions
 * the core raises and catches, and the JSON codec, which stays abstract.
 */
module Values {
  import opened Wrappers

  /**
   * A value as `json.loads` builds it. Objects are maps: the core only looks
   * keys up, so the order in which a dict keeps its keys is not modelled.
   * JSON floats are not modelled (the one float in the core, a catalogue
   * price, is kept in integer cents).
   */
  datatype Json =
    | JNull
    | JBool(b: bool)
    | JInt(n: int)
    | JStr(s: string)
    | JArr(items: seq<Json>)
    | JObj(fields: map<string, Json>)

  /** A JSON object / Python `dict[str, Any]`. */
  type Object = map<string, Json>

  /** Python's name for the type of a decoded JSON value (`type(v).__name__`). */
  function PyTypeName(j: Json): string {
    match j
    case JNull => "NoneType"
    case JBool(_) => "bool"
    case JInt(_) => "int"
    case JStr(_) => "str"
    case JArr(_) => "list"
    case JObj(_) => "dict"
  }

  /** `None` becomes `null`, a string stays a string. */
  function OptStr(o: Option<string>): Json {
    match o
    case None => JNull
    case Some(s) => JStr(s)
  }

  /** `None` becomes `null`, a dict stays an object. */
  function OptObj(o: Option<Object>): Json {
    match o
    case None => JNull
    case Some(m) => JObj(m)
  }

  /**
   * The exceptions the core distinguishes. `ValueError` is what the decision
   * parser raises and what the task loop catches first; `ToolError` is what
   * the registry raises for an unknown tool; every other exception type is
   * kept by name. `message` is `str(e)`.
   */
  datatype Exception =
    | ValueError(message: string)
    | ToolError(message: string)
    | OtherError(typeName: string, message: string)

  /** `json.dumps(x)` or `json.dumps(x, indent=2)`. */
  datatype JsonStyle = Compact | Indented

  /**
   * The standard library's JSON codec, kept abstract: `dumps` renders a value
   * in one of the two layouts the core uses, `loads` decodes text or fails
   * with the decoder's message.
   */
  datatype JsonCodec = JsonCodec(
    dumps: (Json, JsonStyle) -> string,
    loads: string -> Result<Json, string>)
}

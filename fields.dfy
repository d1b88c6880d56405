/**
 * The field checks the tools' input models perform on their keyword
 * arguments: required and defaulted fields, type, length and range bounds,
 * and enumerations of allowed strings. Keys the model does not name are
 * ignored.
 */
module Fields {
  import opened Wrappers
  import opened Values
  import opened Strings
  import opened ToolsBase

  /** A rejected field and the validator's complaint about it. */
  datatype FieldError = FieldError(field: string, problem: string)

  /** Decimal digits of a natural number. */
  function NatToString(n: nat): (s: string)
    ensures |s| >= 1
    decreases n
  {
    var d := ["0123456789"[n % 10]];
    if n < 10 then d else NatToString(n / 10) + d
  }

  /** The text of the validation error raised by input model `model`. */
  function Describe(model: string, e: FieldError): string {
    "1 validation error for " + model + "\n" + e.field + "\n  " + e.problem
  }

  /** `ToolResult(success=False, error=f"Invalid input: {e}")`. */
  function InvalidInput(model: string, e: FieldError): (r: ToolResult)
    ensures WellFormed(r) && !r.success
    ensures r.error.Some? && StartsWith(r.error.value, "Invalid input: ")
  {
    ToolResult(false, None, Some("Invalid input: " + Describe(model, e)))
  }

  /** A required `str` field. */
  function RequiredString(args: Object, field: string): (r: Result<string, FieldError>)
    ensures r.Ok? <==> field in args && args[field].JStr?
    ensures r.Ok? ==> r.value == args[field].s
  {
    if field !in args then Err(FieldError(field, "Field required"))
    else if !args[field].JStr? then Err(FieldError(field, "Input should be a valid string"))
    else Ok(args[field].s)
  }

  /** A required `int` field with bounds `lo <= n <= hi` (`Field(ge=lo, le=hi)`). */
  function RequiredIntInRange(args: Object, field: string, lo: nat, hi: nat): (r: Result<int, FieldError>)
    ensures r.Ok? <==> field in args && args[field].JInt? && lo <= args[field].n <= hi
    ensures r.Ok? ==> r.value == args[field].n
  {
    if field !in args then Err(FieldError(field, "Field required"))
    else if !args[field].JInt? then Err(FieldError(field, "Input should be a valid integer"))
    else if args[field].n < lo then
      Err(FieldError(field, "Input should be greater than or equal to " + NatToString(lo)))
    else if args[field].n > hi then
      Err(FieldError(field, "Input should be less than or equal to " + NatToString(hi)))
    else Ok(args[field].n)
  }

  /** "character" or "characters". */
  function Characters(n: nat): string {
    if n == 1 then " character" else " characters"
  }

  /** A required `str` field of length at least `lo` and, when `hi` is given, at most `hi`. */
  function RequiredStringOfLength(args: Object, field: string, lo: nat, hi: Option<nat>)
    : (r: Result<string, FieldError>)
    ensures r.Ok? <==>
      && field in args && args[field].JStr?
      && lo <= |args[field].s| && (hi.Some? ==> |args[field].s| <= hi.value)
    ensures r.Ok? ==> r.value == args[field].s
  {
    match RequiredString(args, field)
    case Err(e) => Err(e)
    case Ok(s) =>
      if |s| < lo then
        Err(FieldError(field, "String should have at least " + NatToString(lo) + Characters(lo)))
      else if hi.Some? && |s| > hi.value then
        Err(FieldError(field, "String should have at most " + NatToString(hi.value) + Characters(hi.value)))
      else Ok(s)
  }

  /** `'a', 'b' or 'c'`: how the validator lists the allowed literals. */
  function Alternatives(allowed: seq<string>): string
    decreases |allowed|
  {
    if |allowed| == 0 then ""
    else if |allowed| == 1 then "'" + allowed[0] + "'"
    else if |allowed| == 2 then "'" + allowed[0] + "' or '" + allowed[1] + "'"
    else "'" + allowed[0] + "', " + Alternatives(allowed[1..])
  }

  /** A `Literal[...]` field with a default: absent means `default`. */
  function Choice(args: Object, field: string, allowed: seq<string>, default: string)
    : (r: Result<string, FieldError>)
    ensures r.Ok? <==> field !in args || (args[field].JStr? && args[field].s in allowed)
    ensures r.Ok? ==> r.value == if field in args then args[field].s else default
  {
    if field !in args then Ok(default)
    else if args[field].JStr? && args[field].s in allowed then Ok(args[field].s)
    else Err(FieldError(field, "Input should be " + Alternatives(allowed)))
  }

  /** A `str | None` field defaulting to `None`. */
  function OptionalString(args: Object, field: string): (r: Result<Option<string>, FieldError>)
    ensures r.Ok? <==> field !in args || args[field].JNull? || args[field].JStr?
    ensures r.Ok? && r.value.Some? ==> field in args && args[field] == JStr(r.value.value)
    ensures r.Ok? ==> (r.value.None? <==> field !in args || args[field].JNull?)
  {
    if field !in args || args[field].JNull? then Ok(None)
    else if args[field].JStr? then Ok(Some(args[field].s))
    else Err(FieldError(field, "Input should be a valid string"))
  }
}

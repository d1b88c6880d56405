/**
 * The reasoning agent: it turns a task and the observations gathered so far
 * into a chat history, asks the language model once, and parses the reply
 * into a structured decision. It never runs tools itself.
 */
module Reasoning {
  import opened Wrappers
  import opened Values
  import opened Strings
  import opened Schemas
  import opened ToolsBase
  import opened Fields
  import Prompts

  /** The author of a chat message, with its wire value. */
  datatype Role = System | User | Assistant {
    function Value(): string {
      match this
      case System => "system"
      case User => "user"
      case Assistant => "assistant"
    }
  }

  /** One `{"role": ..., "content": ...}` entry of the chat history. */
  datatype ChatMessage = ChatMessage(role: Role, content: string)

  /**
   * The language model client: given the history it returns the text of its
   * reply, or the exception the client raised.
   */
  type Llm = seq<ChatMessage> -> Result<string, Exception>

  /** The closing question of every observation message. */
  const NextQuestion := "\n\nWhat would you like to do next?"

  /** The prefixes of the two errors the parser raises. */
  const NotJsonPrefix := "LLM output is not valid JSON: "
  const SchemaPrefix := "LLM output does not match expected schema: "

  /** `str(x)` of an optional string: `None` prints as "None". */
  function PyStr(o: Option<string>): string {
    match o
    case None => "None"
    case Some(s) => s
  }

  /**
   * `repr(x)` of a decoded JSON value as Python prints it in an error
   * message; strings are single-quoted.
   */
  function Repr(j: Json): string {
    match j
    case JNull => "None"
    case JBool(b) => if b then "True" else "False"
    case JInt(n) => if n < 0 then "-" + NatToString(-n) else NatToString(n)
    case JStr(s) => "'" + s + "'"
    case JArr(_) => "[...]"
    case JObj(_) => "{...}"
  }

  /** "Tool '<name>' ": how an observation message begins. */
  function ObservationLead(toolName: string): string {
    "Tool '" + toolName + "' "
  }

  /**
   * The lead, the verdict, a blank line, the body and the closing question:
   * such a text starts with its verdict, not with a verdict of a different
   * first letter, and ends with its body and the question. `other` is the
   * verdict not chosen; it takes no part in the text and is there so the
   * contract can say the text does not start with it.
   */
  function ObservationText(lead: string, verdict: string, other: string, body: string): (m: string)
    requires verdict != [] && other != [] && verdict[0] != other[0]
    ensures StartsWith(m, lead + verdict) && !StartsWith(m, lead + other)
    ensures EndsWith(m, body + NextQuestion)
  {
    var tail := "\n\n" + (body + NextQuestion);
    ConcatEnds(lead + verdict, tail);
    ConcatEnds("\n\n", body + NextQuestion);
    SuffixOfSuffix(lead + verdict, "\n\n", body + NextQuestion);
    Diverge(lead, verdict, other, tail);
    lead + verdict + tail
  }

  /** The decision the agent replays for an observation: "I called this tool". */
  function ReplayedCall(toolName: string): Json {
    JObj(map[
      "decision_type" := JStr("use_tool"),
      "reasoning" := JStr("Calling " + toolName),
      "tool_call" := JObj(map["tool_name" := JStr(toolName), "arguments" := JObj(map[])])])
  }

  /**
   * The agent: the model client, the JSON codec, and the system prompt it
   * sends first, built from the registry's tool list (see `ForRegistry`).
   */
  datatype ReasoningAgent = ReasoningAgent(llm: Llm, codec: JsonCodec, systemPrompt: string) {

    /**
     * `_format_task`: "Task: " and the task; the context follows, indented
     * JSON under a "Context:" heading, exactly when it is present and not empty.
     */
    function FormatTask(t: TaskInput): (m: string)
      ensures m == "Task: " + t.task + (if t.context.Some? && t.context.value != map[]
        then "\n\nContext:\n" + codec.dumps(JObj(t.context.value), Indented) else "")
      ensures StartsWith(m, "Task: " + t.task)
      ensures (t.context.Some? && t.context.value != map[]) <==> m != "Task: " + t.task
      ensures t.context.Some? && t.context.value != map[] ==>
        EndsWith(m, "\n\nContext:\n" + codec.dumps(JObj(t.context.value), Indented))
    {
      var head := "Task: " + t.task;
      if t.context.Some? && t.context.value != map[] then
        var tail := "\n\nContext:\n" + codec.dumps(JObj(t.context.value), Indented);
        assert (head + tail)[..|head|] == head;
        assert (head + tail)[|head|..] == tail;
        head + tail
      else head
    }

    /**
     * `_format_observation`: names the tool and says whether it succeeded;
     * a success shows the result as indented JSON, a failure shows the error
     * text; both end by asking what to do next.
     */
    function FormatObservation(o: Observation): (m: string)
      ensures m == ObservationLead(o.toolName) + (if o.success then "executed successfully." else "failed.")
        + "\n\n" + (if o.success then "Result:\n" + codec.dumps(OptObj(o.result), Indented) else "Error: " + PyStr(o.error))
        + NextQuestion
      ensures o.success <==> StartsWith(m, ObservationLead(o.toolName) + "executed successfully.")
      ensures !o.success <==> StartsWith(m, ObservationLead(o.toolName) + "failed.")
      ensures o.success ==>
        EndsWith(m, "Result:\n" + codec.dumps(OptObj(o.result), Indented) + NextQuestion)
      ensures !o.success ==> EndsWith(m, "Error: " + PyStr(o.error) + NextQuestion)
    {
      var lead := ObservationLead(o.toolName);
      var ok := "executed successfully.";
      var bad := "failed.";
      var (head, other, body) :=
        if o.success then (ok, bad, "Result:\n" + codec.dumps(OptObj(o.result), Indented))
        else (bad, ok, "Error: " + PyStr(o.error));
      ObservationText(lead, head, other, body)
    }

    /** The assistant turn replayed for an observation. */
    function CallTurn(o: Observation): ChatMessage {
      ChatMessage(Assistant, codec.dumps(ReplayedCall(o.toolName), Compact))
    }

    /** The user turn reporting an observation. */
    function ResultTurn(o: Observation): ChatMessage {
      ChatMessage(User, FormatObservation(o))
    }

    /** The turns replaying the observations, built from the last one back. */
    function Turns(obs: seq<Observation>): (ms: seq<ChatMessage>)
      ensures |ms| == 2 * |obs|
    {
      if obs == [] then []
      else
        var k := |obs| - 1;
        Turns(obs[..k]) + [CallTurn(obs[k]), ResultTurn(obs[k])]
    }

    /**
     * Two turns per observation, in order: the replayed tool call, then its
     * outcome.
     */
    lemma {:induction false} TurnsInOrder(obs: seq<Observation>)
      ensures forall i :: 0 <= i < |obs| ==>
        Turns(obs)[2 * i] == CallTurn(obs[i]) && Turns(obs)[2 * i + 1] == ResultTurn(obs[i])
    {
      if obs != [] {
        var k := |obs| - 1;
        var prev := Turns(obs[..k]);
        TurnsInOrder(obs[..k]);
        assert Turns(obs) == prev + [CallTurn(obs[k]), ResultTurn(obs[k])];
        forall i | 0 <= i < |obs|
          ensures Turns(obs)[2 * i] == CallTurn(obs[i]) && Turns(obs)[2 * i + 1] == ResultTurn(obs[i])
        {
          if i < k {
            assert obs[..k][i] == obs[i];
            assert 2 * i + 1 < |prev|;
            assert Turns(obs)[2 * i] == prev[2 * i] && Turns(obs)[2 * i + 1] == prev[2 * i + 1];
          } else {
            assert 2 * i == |prev|;
          }
        }
      }
    }

    /** The observations as the history sees them: `None` and `[]` add nothing. */
    function Replayed(obs: Option<seq<Observation>>): seq<Observation> {
      if obs.Some? then obs.value else []
    }

    /**
     * `_build_messages`: the system prompt, the task, then two turns per
     * observation.
     */
    function Messages(t: TaskInput, obs: Option<seq<Observation>>): (ms: seq<ChatMessage>)
      ensures |ms| == 2 + 2 * |Replayed(obs)|
      ensures ms[0] == ChatMessage(System, systemPrompt)
      ensures ms[1] == ChatMessage(User, FormatTask(t))
      ensures ms[2..] == Turns(Replayed(obs))
    {
      var turns := Turns(Replayed(obs));
      [ChatMessage(System, systemPrompt), ChatMessage(User, FormatTask(t))] + turns
    }

    /** The history built turn by turn, as the agent appends it. */
    method BuildMessages(t: TaskInput, obs: Option<seq<Observation>>) returns (ms: seq<ChatMessage>)
      ensures ms == Messages(t, obs)
    {
      var turns: seq<ChatMessage> := [];
      if obs.Some? && obs.value != [] {
        turns := ReplayTurns(obs.value);
      }
      ms := [ChatMessage(System, systemPrompt), ChatMessage(User, FormatTask(t))] + turns;
    }

    /** The loop over the observations, appending two turns for each. */
    method ReplayTurns(all: seq<Observation>) returns (turns: seq<ChatMessage>)
      ensures turns == Turns(all)
    {
      turns := [];
      for i := 0 to |all|
        invariant turns == Turns(all[..i])
      {
        TurnsAppend(all, i);
        turns := turns + [CallTurn(all[i]), ResultTurn(all[i])];
      }
      assert all[..|all|] == all;
    }

    /** One more observation adds its two turns at the end. */
    lemma TurnsAppend(all: seq<Observation>, i: nat)
      requires i < |all|
      ensures Turns(all[..i + 1]) == Turns(all[..i]) + [CallTurn(all[i]), ResultTurn(all[i])]
    {
      assert all[..i + 1][..i] == all[..i];
    }

    /**
     * `reason`: one call of the model on the history, then the reply parsed.
     * It fails only with the model client's own exception, one of the
     * parser's two `ValueError`s, or the `AttributeError` of a reply that is
     * JSON but not an object.
     */
    function Reason(t: TaskInput, obs: Option<seq<Observation>>): (r: Result<AgentDecision, Exception>)
      ensures llm(Messages(t, obs)).Err? ==> r == Err(llm(Messages(t, obs)).error)
      ensures llm(Messages(t, obs)).Ok? ==> r == ParseDecision(codec, llm(Messages(t, obs)).value)
      ensures r.Err? ==>
        || llm(Messages(t, obs)) == Err(r.error)
        || (r.error.ValueError? && (StartsWith(r.error.message, NotJsonPrefix) || StartsWith(r.error.message, SchemaPrefix)))
        || (r.error.OtherError? && r.error.typeName == "AttributeError")
    {
      match llm(Messages(t, obs))
      case Err(e) => Err(e)
      case Ok(raw) => ParseDecision(codec, raw)
    }
  }

  /**
   * The agent over a registry. The prompt is rebuilt from
   * `registry.list_tools()` on every call; the registry does not change once
   * the tools are registered, so building it once gives the same text.
   */
  function ForRegistry(llm: Llm, codec: JsonCodec, registry: Table): ReasoningAgent
    requires registry.Valid()
  {
    ReasoningAgent(llm, codec, Prompts.SystemPrompt(registry.ListTools()))
  }

  /** The lines between the first and the last (`lines[1:-1]`). */
  function Inner(lines: seq<string>): seq<string> {
    if |lines| >= 2 then lines[1..|lines| - 1] else []
  }

  /**
   * The reply with surrounding whitespace removed and, when it then starts
   * with a code fence, its first and last lines dropped.
   */
  function Clean(raw: string): (c: string)
    ensures !StartsWith(Strip(raw), "```") ==> c == Strip(raw)
  {
    var cleaned := Strip(raw);
    if StartsWith(cleaned, "```") then Unfence(cleaned) else cleaned
  }

  /** A fenced text without its first and last lines. */
  function Unfence(t: string): string {
    Join(Inner(Split(t, '\n')), "\n")
  }

  /** `raise ValueError(f"LLM output does not match expected schema: {e}")`. */
  function SchemaError(detail: string): (r: Result<AgentDecision, Exception>)
    ensures r.Err? && r.error.ValueError? && StartsWith(r.error.message, SchemaPrefix)
  {
    var m := SchemaPrefix + detail;
    assert m[..|SchemaPrefix|] == SchemaPrefix;
    Err(ValueError(m))
  }

  /** `d.get(key, default)`. */
  function Lookup(f: Object, key: string, default: Json): Json {
    if key in f then f[key] else default
  }

  /** The shape the `tool_call` field accepts when it is an object. */
  predicate ToolCallShape(g: Object) {
    && "tool_name" in g && g["tool_name"].JStr?
    && ("arguments" in g ==> g["arguments"].JObj?)
  }

  /**
   * The objects the decision schema accepts: a known decision type, a
   * string reasoning if any, a tool call that is null or a well-shaped
   * object, and a message that is null or a string. Other keys are ignored.
   */
  predicate Acceptable(f: Object) {
    && "decision_type" in f && f["decision_type"].JStr? && DecisionTypeOf(f["decision_type"].s).Some?
    && ("reasoning" in f ==> f["reasoning"].JStr?)
    && ("tool_call" in f ==> f["tool_call"].JNull? || (f["tool_call"].JObj? && ToolCallShape(f["tool_call"].fields)))
    && ("message" in f ==> f["message"].JNull? || f["message"].JStr?)
  }

  /** The `tool_call` field: null is no call, an object is validated as a `ToolCall`. */
  function ToolCallField(j: Json): (r: Result<Option<ToolCall>, FieldError>)
    ensures r.Ok? <==> j.JNull? || (j.JObj? && ToolCallShape(j.fields))
    ensures r.Ok? && r.value.Some? ==>
      && j.JObj?
      && j.fields["tool_name"] == JStr(r.value.value.toolName)
      && r.value.value.arguments == Lookup(j.fields, "arguments", JObj(map[])).fields
    ensures r.Ok? ==> (r.value.None? <==> j.JNull?)
  {
    if j.JNull? then Ok(None)
    else if !j.JObj? then Err(FieldError("tool_call", "Input should be a valid dictionary or instance of ToolCall"))
    else
      var g := j.fields;
      if "tool_name" !in g then Err(FieldError("tool_call.tool_name", "Field required"))
      else if !g["tool_name"].JStr? then Err(FieldError("tool_call.tool_name", "Input should be a valid string"))
      else
        var args := Lookup(g, "arguments", JObj(map[]));
        if !args.JObj? then Err(FieldError("tool_call.arguments", "Input should be a valid dictionary"))
        else Ok(Some(ToolCall(g["tool_name"].s, args.fields)))
  }

  /**
   * Building the decision from the decoded reply. A reply that is not an
   * object has no `get`, which raises `AttributeError`; an unknown decision
   * type and a field of the wrong type raise the schema `ValueError`. An
   * accepted object yields its decision type, its reasoning (empty when
   * absent), its tool call and its message.
   */
  function ValidateDecision(data: Json): (r: Result<AgentDecision, Exception>)
    ensures r.Err? && r.error.OtherError? <==> !data.JObj?
    ensures !data.JObj? ==> r == Err(OtherError("AttributeError", "'" + PyTypeName(data) + "' object has no attribute 'get'"))
    ensures r.Ok? <==> data.JObj? && Acceptable(data.fields)
    ensures r.Err? && data.JObj? ==> r.error.ValueError? && StartsWith(r.error.message, SchemaPrefix)
    ensures r.Ok? ==>
      && data.fields["decision_type"] == JStr(r.value.decisionType.Value())
      && Lookup(data.fields, "reasoning", JStr("")) == JStr(r.value.reasoning)
      && Lookup(data.fields, "message", JNull) == OptStr(r.value.message)
      && (r.value.toolCall.None? <==> Lookup(data.fields, "tool_call", JNull) == JNull)
      && ToolCallField(Lookup(data.fields, "tool_call", JNull)) == Ok(r.value.toolCall)
    ensures r.Ok? && r.value.toolCall.Some? ==>
      var g := data.fields["tool_call"];
      && g.JObj?
      && g.fields["tool_name"] == JStr(r.value.toolCall.value.toolName)
      && r.value.toolCall.value.arguments == Lookup(g.fields, "arguments", JObj(map[])).fields
  {
    if !data.JObj? then
      Err(OtherError("AttributeError", "'" + PyTypeName(data) + "' object has no attribute 'get'"))
    else
      var f := data.fields;
      var tag := Lookup(f, "decision_type", JNull);
      if !tag.JStr? || DecisionTypeOf(tag.s).None? then
        SchemaError(Repr(tag) + " is not a valid DecisionType")
      else
        var reasoning := Lookup(f, "reasoning", JStr(""));
        if !reasoning.JStr? then
          SchemaError(Describe("AgentDecision", FieldError("reasoning", "Input should be a valid string")))
        else
          match ToolCallField(Lookup(f, "tool_call", JNull))
          case Err(e) => SchemaError(Describe("AgentDecision", e))
          case Ok(call) =>
            match OptionalString(f, "message")
            case Err(e) => SchemaError(Describe("AgentDecision", e))
            case Ok(message) =>
              Ok(AgentDecision(DecisionTypeOf(tag.s).value, reasoning.s, call, message))
  }

  /**
   * `_parse_decision`: clean the reply, decode it, build the decision.
   * Text that does not decode raises the "not valid JSON" `ValueError` with
   * the decoder's message; there is no second attempt.
   */
  function ParseDecision(codec: JsonCodec, raw: string): (r: Result<AgentDecision, Exception>)
    ensures codec.loads(Clean(raw)).Err? ==>
      r == Err(ValueError(NotJsonPrefix + codec.loads(Clean(raw)).error))
    ensures r.Ok? <==>
      && codec.loads(Clean(raw)).Ok?
      && codec.loads(Clean(raw)).value.JObj?
      && Acceptable(codec.loads(Clean(raw)).value.fields)
    ensures codec.loads(Clean(raw)).Ok? ==> r == ValidateDecision(codec.loads(Clean(raw)).value)
  {
    match codec.loads(Clean(raw))
    case Err(detail) => Err(ValueError(NotJsonPrefix + detail))
    case Ok(data) => ValidateDecision(data)
  }

  /** A decision written out as the JSON object the schema reads. */
  function DecisionJson(d: AgentDecision): Json {
    JObj(map[
      "decision_type" := JStr(d.decisionType.Value()),
      "reasoning" := JStr(d.reasoning),
      "tool_call" := (match d.toolCall
        case None => JNull
        case Some(c) => JObj(map["tool_name" := JStr(c.toolName), "arguments" := JObj(c.arguments)])),
      "message" := OptStr(d.message)])
  }

  /** Every decision survives being written out and read back. */
  lemma {:induction false} DecisionRoundTrip(d: AgentDecision)
    ensures ValidateDecision(DecisionJson(d)) == Ok(d)
  {
    var f := DecisionJson(d).fields;
    assert DecisionTypeOf(d.decisionType.Value()) == Some(d.decisionType);
    match d.toolCall
    case None =>
      assert ToolCallField(f["tool_call"]) == Ok(None);
    case Some(c) =>
      assert ToolCallField(f["tool_call"]) == Ok(Some(c));
  }

  /** The assistant turn replayed for an observation reads back as a `use_tool` decision for that tool with no arguments. */
  lemma {:induction false} ReplayedCallIsDecision(toolName: string)
    ensures ValidateDecision(ReplayedCall(toolName))
      == Ok(AgentDecision(UseTool, "Calling " + toolName, Some(ToolCall(toolName, map[])), None))
  {
    var f := ReplayedCall(toolName).fields;
    assert DecisionTypeOf("use_tool") == Some(UseTool);
    assert ToolCallField(f["tool_call"]) == Ok(Some(ToolCall(toolName, map[])));
  }

  /**
   * A reply fenced as a code block (an opening line such as "```json", the
   * text, a closing line) cleans to the text inside the fence.
   */
  lemma {:induction false} FenceRemoved(lang: string, body: string, closing: string)
    requires '\n' !in lang && '\n' !in closing
    requires closing != [] && !IsSpace(closing[|closing| - 1])
    ensures Clean("```" + lang + "\n" + body + "\n" + closing) == body
  {
    CleanFenced(lang, body, closing);
    FenceUnwrapped(lang, body, closing);
  }

  /** Dropping a fenced reply's first and last lines leaves the body. */
  lemma FenceUnwrapped(lang: string, body: string, closing: string)
    requires '\n' !in lang && '\n' !in closing
    ensures Unfence("```" + lang + "\n" + body + "\n" + closing) == body
  {
    var lines := Split("```" + lang + "\n" + body + "\n" + closing, '\n');
    SplitFramed("```" + lang, body, closing, '\n');
    assert lines == ["```" + lang] + Split(body, '\n') + [closing];
    assert Inner(lines) == Split(body, '\n');
    JoinSplit(body, '\n');
  }

  /** A fenced reply whose closing line does not end in whitespace is cleaned by unfencing it. */
  lemma CleanFenced(lang: string, body: string, closing: string)
    requires closing != [] && !IsSpace(closing[|closing| - 1])
    ensures Clean("```" + lang + "\n" + body + "\n" + closing) == Unfence("```" + lang + "\n" + body + "\n" + closing)
  {
    FenceUnpadded(lang, body, closing);
  }

  /** A fenced reply has no surrounding whitespace and starts with the fence. */
  lemma FenceUnpadded(lang: string, body: string, closing: string)
    requires closing != [] && !IsSpace(closing[|closing| - 1])
    ensures Strip("```" + lang + "\n" + body + "\n" + closing) == "```" + lang + "\n" + body + "\n" + closing
    ensures StartsWith("```" + lang + "\n" + body + "\n" + closing, "```")
  {
    var fenced := "```" + lang + "\n" + body + "\n" + closing;
    ConcatEnds("```", lang + ['\n'] + body + ['\n'] + closing);
    assert fenced == "```" + (lang + ['\n'] + body + ['\n'] + closing);
    ConcatEnds("```" + lang + "\n" + body + "\n", closing);
    assert fenced[0] == '`';
    assert fenced[|fenced| - 1] == closing[|closing| - 1];
    StripUnpadded(fenced);
  }

  /**
   * Fencing does not change the decision: a stripped reply that is not
   * itself fenced parses the same bare and inside a fence.
   */
  lemma {:induction false} FencedParsesAlike(codec: JsonCodec, reply: string, lang: string)
    requires '\n' !in lang
    requires reply == [] || (!IsSpace(reply[0]) && !IsSpace(reply[|reply| - 1]))
    requires !StartsWith(reply, "```")
    ensures ParseDecision(codec, "```" + lang + "\n" + reply + "\n" + "```") == ParseDecision(codec, reply)
  {
    FencedCleansAlike(reply, lang);
    ParsedThroughClean(codec, "```" + lang + "\n" + reply + "\n" + "```", reply);
  }

  /** A stripped, unfenced reply cleans to the same text bare and inside a fence. */
  lemma FencedCleansAlike(reply: string, lang: string)
    requires '\n' !in lang
    requires reply == [] || (!IsSpace(reply[0]) && !IsSpace(reply[|reply| - 1]))
    requires !StartsWith(reply, "```")
    ensures Clean("```" + lang + "\n" + reply + "\n" + "```") == Clean(reply)
  {
    CleanUnfenced(reply);
    FenceRemoved(lang, reply, "```");
  }

  /** A reply with no surrounding whitespace and no opening fence is its own cleaned text. */
  lemma CleanUnfenced(reply: string)
    requires reply == [] || (!IsSpace(reply[0]) && !IsSpace(reply[|reply| - 1]))
    requires !StartsWith(reply, "```")
    ensures Clean(reply) == reply
  {
    StripUnpadded(reply);
  }

  /** The parser sees a reply only through its cleaned text. */
  lemma ParsedThroughClean(codec: JsonCodec, a: string, b: string)
    requires Clean(a) == Clean(b)
    ensures ParseDecision(codec, a) == ParseDecision(codec, b)
  {
  }

  /**
   * A fence with nothing after its opening line (the whole reply on one
   * line) cleans to the empty text, which no JSON decoder accepts.
   */
  lemma {:induction false} OneLineFenceIsEmpty(raw: string)
    requires StartsWith(Strip(raw), "```") && '\n' !in Strip(raw)
    ensures Clean(raw) == ""
  {
    SplitWithoutSeparator(Strip(raw), '\n');
    assert Unfence(Strip(raw)) == "";
  }

  /** A reply that decodes but lacks `decision_type` is rejected as `None is not a valid DecisionType`. */
  lemma {:induction false} MissingDecisionType(codec: JsonCodec, raw: string)
    requires codec.loads(Clean(raw)).Ok? && codec.loads(Clean(raw)).value.JObj?
    requires "decision_type" !in codec.loads(Clean(raw)).value.fields
    ensures ParseDecision(codec, raw) == Err(ValueError(SchemaPrefix + "None is not a valid DecisionType"))
  {
    MissingTag(codec.loads(Clean(raw)).value.fields);
  }

  /** An object without `decision_type` fails on the lookup's `None`. */
  lemma MissingTag(f: Object)
    requires "decision_type" !in f
    ensures ValidateDecision(JObj(f)) == Err(ValueError(SchemaPrefix + "None is not a valid DecisionType"))
  {
    assert Lookup(f, "decision_type", JNull) == JNull;
    assert Repr(JNull) + " is not a valid DecisionType" == "None is not a valid DecisionType";
  }
}

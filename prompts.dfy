// The system prompt the reasoning agent sends first: a fixed template with
// the registry's tools listed one per line (app/agents/prompts.py).
module Prompts {
  import opened Wrappers
  import opened Strings
  import opened ToolsBase

  /** The marker appended to the line of a tool that has side effects. */
  const SideEffectsNote := " \U{26A0}\U{FE0F} (has side effects)"

  /** The tools section when the registry is empty. */
  const NoToolsText := "No tools are currently available."

  /** The extra decision alternative offered only when tools exist. */
  const UseToolOption := "\"use_tool\""

  // The fixed text around the three slots of the template, in order:
  // head, tools section, output format, decision option, alternatives,
  // tool-call example, rules and examples.

  const PromptHead :=
    "      You are an autonomous task agent. Your job is to analyze tasks and make structured decisions.\n"
    + "\n"
    + "      ## Your Capabilities\n"
    + "      You can make ONE of these decisions:\n"
    + "      - **use_tool**: Call an external tool to get information or perform an action\n"
    + "      - **respond**: Provide a direct response (you have enough information)\n"
    + "      - **clarify**: Ask for more information from the user\n"
    + "      - **escalate**: The task requires human intervention\n"
    + "\n"
    + "      ## Available Tools\n"
    + "      "

  const PromptOutputFormat :=
    "\n"
    + "\n"
    + "      ## Output Format\n"
    + "      You MUST respond with valid JSON matching this exact structure:\n"
    + "\n"
    + "      ```json\n"
    + "      {\n"
    + "        \"decision_type\": "

  const PromptDecisionAlternatives :=
    " | \"respond\" | \"clarify\" | \"escalate\",\n"
    + "        \"reasoning\": \"Your internal reasoning about why you made this decision\",\n"
    + "        \"message\": \"The message to return to the user (optional for use_tool)\",\n"
    + "        \"tool_call\": {\"tool_name\": \"...\", \"arguments\": {...}}  // Only for use_tool\n"
    + "      }\n"
    + "      ```\n"
    + "      "

  const ToolJsonExample :=
    "\n"
    + "                              For tool calls, include the tool_call object:\n"
    + "                              ```json\n"
    + "                              {\n"
    + "                                \"decision_type\": \"use_tool\",\n"
    + "                                \"reasoning\": \"I need to look up the product price\",\n"
    + "                                \"tool_call\": {\n"
    + "                                  \"tool_name\": \"get_pricing\",\n"
    + "                                  \"arguments\": {\"product_id\": \"PROD-001\"}\n"
    + "                                }\n"
    + "                              }\n"
    + "                              ```"

  const PromptRules :=
    "\n"
    + "\n"
    + "      ## Rules\n"
    + "      1. ALWAYS output valid JSON - no markdown, no explanation outside the JSON\n"
    + "      2. The \"reasoning\" field is for your internal thought process\n"
    + "      3. The \"message\" field is what the user will see\n"
    + "      4. For \"use_tool\", include \"tool_call\" with the tool name and arguments\n"
    + "      5. Only use tools that are listed in Available Tools\n"
    + "      6. Be concise and actionable\n"
    + "      7. If you cannot help, escalate - do not make up information\n"
    + "\n"
    + "      ## Examples\n"
    + "\n"
    + "      Task: \"What is 2 + 2?\"\n"
    + "      ```json\n"
    + "      {\n"
    + "        \"decision_type\": \"respond\",\n"
    + "        \"reasoning\": \"This is a simple arithmetic question I can answer directly.\",\n"
    + "        \"message\": \"2 + 2 equals 4.\"\n"
    + "      }\n"
    + "      ```\n"
    + "\n"
    + "      Task: \"Process the order\"\n"
    + "      ```json\n"
    + "      {\n"
    + "        \"decision_type\": \"clarify\",\n"
    + "        \"reasoning\": \"The user hasn't specified which order or what processing is needed.\",\n"
    + "        \"message\": \"Could you please specify which order you'd like me to process and what action to take?\"\n"
    + "      }\n"
    + "      ```\n"
    + "      "

  /** The fields a tool line shows, with the defaults used for absent keys. */
  function DisplayName(t: ToolSchema): string { t.name.GetOr("unknown") }
  function DisplayDescription(t: ToolSchema): string { t.description.GetOr("No description") }
  predicate Flagged(t: ToolSchema) { t.hasSideEffects.GetOr(false) }

  /** The start every tool line has: the bold name, then the description. */
  function LineLead(t: ToolSchema): string {
    "- **" + DisplayName(t) + "**: " + DisplayDescription(t)
  }

  /**
   * One line of the tools section: the lead, then the side-effects marker
   * exactly when the schema says the tool has side effects.
   */
  function ToolLine(t: ToolSchema): (line: string)
    ensures StartsWith(line, LineLead(t))
    ensures Flagged(t) <==> |line| == |LineLead(t)| + |SideEffectsNote|
    ensures !Flagged(t) <==> |line| == |LineLead(t)|
    ensures Flagged(t) ==> EndsWith(line, SideEffectsNote)
    ensures '\n' !in DisplayName(t) && '\n' !in DisplayDescription(t) ==> '\n' !in line
  {
    var line := LineLead(t) + (if Flagged(t) then SideEffectsNote else "");
    assert line[..|LineLead(t)|] == LineLead(t);
    line
  }

  /** The line of each tool, in the order given. */
  function ToolLines(tools: seq<ToolSchema>): seq<string> {
    seq(|tools|, i requires 0 <= i < |tools| => ToolLine(tools[i]))
  }

  /** The tools section for a non-empty tool list: its lines joined by newlines. */
  function ToolsListing(tools: seq<ToolSchema>): string {
    Join(ToolLines(tools), "\n")
  }

  /** `_format_tools`: builds the line list in a loop and joins it. */
  method FormatTools(tools: seq<ToolSchema>) returns (text: string)
    ensures text == ToolsListing(tools)
  {
    var lines: seq<string> := [];
    for i := 0 to |tools|
      invariant |lines| == i
      invariant forall k :: 0 <= k < i ==> lines[k] == ToolLine(tools[k])
    {
      var name := tools[i].name.GetOr("unknown");
      var desc := tools[i].description.GetOr("No description");
      var sideEffects := tools[i].hasSideEffects.GetOr(false);
      var effectNote := if sideEffects then SideEffectsNote else "";
      lines := lines + ["- **" + name + "**: " + desc + effectNote];
    }
    assert lines == ToolLines(tools);
    text := Join(lines, "\n");
  }

  /** No displayed name or description contains a line break. */
  predicate SingleLine(t: ToolSchema) {
    '\n' !in DisplayName(t) && '\n' !in DisplayDescription(t)
  }

  /**
   * The listing has exactly one line per tool, in order, as long as no
   * name or description spans several lines.
   */
  lemma ListingLines(tools: seq<ToolSchema>)
    requires |tools| >= 1
    requires forall i :: 0 <= i < |tools| ==> SingleLine(tools[i])
    ensures Split(ToolsListing(tools), '\n') == ToolLines(tools)
  {
    var lines := ToolLines(tools);
    forall i | 0 <= i < |lines| ensures '\n' !in lines[i] {
      assert SingleLine(tools[i]);
    }
    SplitJoin(lines, '\n');
  }

  /** The three slots of the template, filled in for a tool list. */
  function ToolsSection(tools: seq<ToolSchema>): string {
    if tools == [] then NoToolsText else ToolsListing(tools)
  }
  function DecisionOption(tools: seq<ToolSchema>): string {
    if tools == [] then "" else UseToolOption
  }
  function ToolExample(tools: seq<ToolSchema>): string {
    if tools == [] then "" else ToolJsonExample
  }

  /** The template with its three slots filled in. */
  function Layout(section: string, option: string, example: string): string {
    PromptHead + section + PromptOutputFormat + option + PromptDecisionAlternatives + example + PromptRules
  }

  /** `build_system_prompt`: the template filled in for the tool list. */
  function SystemPrompt(tools: seq<ToolSchema>): string {
    Layout(ToolsSection(tools), DecisionOption(tools), ToolExample(tools))
  }

  /**
   * With no tools the prompt says so, offers no tool decision and shows no
   * tool-call example; with tools the listing follows the head, and the
   * `use_tool` option and the tool-call example are both present.
   */
  lemma PromptWithoutTools()
    ensures SystemPrompt([]) == PromptHead + NoToolsText + PromptOutputFormat + PromptDecisionAlternatives + PromptRules
  {
    EmptySlots(PromptHead, NoToolsText, PromptOutputFormat, PromptDecisionAlternatives, PromptRules);
  }

  /** Empty option and example slots leave the other parts adjacent. */
  lemma EmptySlots(a: string, b: string, c: string, e: string, g: string)
    ensures a + b + c + "" + e + "" + g == a + b + c + e + g
  {
  }

  lemma PromptWithTools(tools: seq<ToolSchema>)
    requires tools != []
    ensures StartsWith(SystemPrompt(tools), PromptHead + ToolsListing(tools))
    ensures EndsWith(SystemPrompt(tools), UseToolOption + PromptDecisionAlternatives + ToolJsonExample + PromptRules)
  {
    FilledLayout(PromptHead, ToolsListing(tools), PromptOutputFormat, UseToolOption,
      PromptDecisionAlternatives, ToolJsonExample, PromptRules);
  }

  /** Seven parts put together start with the first two and end with the last four. */
  lemma FilledLayout(a: string, b: string, c: string, d: string, e: string, f: string, g: string)
    ensures StartsWith(a + b + c + d + e + f + g, a + b)
    ensures EndsWith(a + b + c + d + e + f + g, d + e + f + g)
  {
    assert a + b + c + d + e + f + g == (a + b) + (c + (d + e + f + g));
    ConcatEnds(a + b, c + (d + e + f + g));
    assert a + b + c + d + e + f + g == ((a + b) + c) + (d + e + f + g);
    ConcatEnds((a + b) + c, d + e + f + g);
  }

  /**
   * `build_system_prompt` as the source writes it: three slots start empty
   * and are filled when there are tools, the listing coming from the
   * `FormatTools` loop. `SystemPrompt` is the same text as a function, for
   * use in specifications; this method is where the loop is run.
   */
  method BuildSystemPrompt(tools: seq<ToolSchema>) returns (prompt: string)
    ensures prompt == SystemPrompt(tools)
  {
    var toolsSection := NoToolsText;
    var toolDecision := "";
    var toolJsonExample := "";
    if tools != [] {
      toolsSection := FormatTools(tools);
      toolDecision := UseToolOption;
      toolJsonExample := ToolJsonExample;
    }
    prompt := PromptHead + toolsSection + PromptOutputFormat + toolDecision
      + PromptDecisionAlternatives + toolJsonExample + PromptRules;
  }

  /**
   * For a registry whose names and descriptions are single lines, the tools
   * section of its prompt has one line per registered tool, in registration
   * order, each naming the tool, giving its description, and carrying the
   * side-effects marker exactly when the tool has side effects.
   */
  lemma {:induction false} PromptListsRegistry(t: Table)
    requires t.Valid() && t.names != []
    requires forall n :: n in t.tools ==> '\n' !in n && '\n' !in t.tools[n].description
    ensures var lines := Split(ToolsListing(t.ListTools()), '\n');
      && |lines| == |t.ToolNames()|
      && forall i :: 0 <= i < |lines| ==>
        var tool := t.tools[t.ToolNames()[i]];
        && StartsWith(lines[i], "- **" + tool.name + "**: " + tool.description)
        && (tool.hasSideEffects ==> EndsWith(lines[i], SideEffectsNote))
        && (!tool.hasSideEffects ==> lines[i] == "- **" + tool.name + "**: " + tool.description)
  {
    var schemas := t.ListTools();
    forall i | 0 <= i < |schemas| ensures SingleLine(schemas[i]) {
      assert t.names[i] in t.tools;
      assert schemas[i] == t.tools[t.names[i]].GetSchema();
    }
    ListingLines(schemas);
    forall i | 0 <= i < |schemas|
      ensures var tool := t.tools[t.ToolNames()[i]];
        && StartsWith(ToolLines(schemas)[i], "- **" + tool.name + "**: " + tool.description)
        && (tool.hasSideEffects ==> EndsWith(ToolLines(schemas)[i], SideEffectsNote))
        && (!tool.hasSideEffects ==> ToolLines(schemas)[i] == "- **" + tool.name + "**: " + tool.description)
    {
      var tool := t.tools[t.names[i]];
      assert t.names[i] in t.tools;
      assert schemas[i] == tool.GetSchema();
      assert LineLead(schemas[i]) == "- **" + tool.name + "**: " + tool.description;
    }
  }
}

# Autonomous task agent — a Dafny model

This project models the core of a small autonomous task agent. A task comes in as text, optionally with a JSON
context. The task service runs an observation loop of at most five steps.

At each step, a reasoning agent asks a language model for a structured decision. It sends:

- a system prompt listing the registered tools;
- the task;
- one "I called this tool" / "here is what happened" pair of turns per earlier observation.

The agent then parses the model's reply into an `AgentDecision`. The reply may be wrapped in a Markdown code fence.

- A terminal decision (`respond`, `clarify`, `escalate`) ends the loop with a success, needs-input or escalated response.
- A `use_tool` decision is sent to the dispatcher. The dispatcher looks the tool up in the registry, runs it, and
  turns an unknown tool or a raised exception into a failed `ToolResult`. The result is recorded as an `Observation`
  and the loop goes on.
- A parse failure ends the task with a failed response.
- Running out of steps ends the task with a failed response that carries the step count and every observation.

The registry holds four built-in tools:

| tool | what it does | side effects |
|---|---|---|
| `get_pricing` | catalogue lookup | none |
| `create_order` | reports a new order with a random id | yes |
| `send_notification` | sends a message and returns a preview: the message itself up to 50 characters, else its first 50 characters and "..." | yes |
| `escalate_to_human` | opens a fixed escalation ticket | yes |

Each tool validates its keyword arguments the way its input model does.

The modules follow the source files:

| module | source |
|---|---|
| `Wrappers` | `Option` and `Result` |
| `Values` | JSON values, exceptions, the abstract JSON codec |
| `Strings` | Python's `strip`, `split`, `join` and list rendering |
| `Schemas` | `app/schemas/task.py` |
| `ToolsBase` | `app/tools/base.py`: the tool datatype, the registry as a value (`Table`) and as a mutable object (`ToolRegistry`) |
| `Fields` | the field checks shared by the tools' input models |
| `Pricing`, `Orders`, `Notifications`, `Escalation` | the tools |
| `Tools` | `app/tools/__init__.py` |
| `Dispatcher` | `app/agents/dispatcher.py` |
| `Prompts` | `app/agents/prompts.py` |
| `Reasoning` | `app/agents/reasoning.py` |
| `TaskService` | `app/services/task_service.py` |

Some things are parameters rather than definitions:

- The language model is a function from the message list to a reply or an exception.
- `json.dumps`/`json.loads` form an abstract codec.
- The random part of an order id is a parameter.
- The reasoning engine the loop consults is an oracle. `TaskService.AgentOracle` instantiates it with the real
  `ReasoningAgent`.

The loop is written as a `while` loop (`TaskService.Service.ProcessTask`). It is proved equal to the recursive
specification `Execution`, and the properties of the loop are proved about that specification.

## Model

| member | source | states |
|---|---|---|
| Schemas.DecisionTypeOf | app/schemas/task.py:28-34 | `DecisionType(value)` succeeds exactly for the four tag strings and gives the member with that value |
| Schemas.ResponseStatusOf | app/schemas/task.py:76-82 | the four status strings map one-to-one to the response statuses |
| Schemas.DumpLoadRoundTrip | app/services/task_service.py:69 | an observation's `model_dump()` reads back as the same observation |
| Schemas.TaskRequest.ToTaskInput | app/schemas/task.py:109-111 | the task input keeps the request's task and context |
| Schemas.FromAgentResponse | app/schemas/task.py:121-128 | the API response copies status, message and data |
| ToolsBase.Tool.GetSchema | app/tools/base.py:49-55 | the schema holds exactly the tool's name, description and side-effect flag |
| ToolsBase.EmptyTableValid | app/tools/base.py:65-66 | a new registry is consistent |
| ToolsBase.RegisterValid | app/tools/base.py:68-70 | registering keeps names distinct, equal to the keys, each tool under its own name |
| ToolsBase.RegisterGet | app/tools/base.py:68-74 | after `register`, `get` of the tool's name finds it (last write wins), other names are unaffected |
| ToolsBase.RegisterOrder | app/tools/base.py:68-70 | a new name is appended to the insertion order, a re-registered one keeps its place |
| ToolsBase.GetOrRaiseAgreesWithGet | app/tools/base.py:76-82 | `get_or_raise` returns what `get` finds, else raises `ToolError("Unknown tool: <name>. Available: [...]")` |
| ToolsBase.GetRegistered | app/tools/base.py:72-74 | `get` finds a tool exactly for registered names |
| ToolsBase.ListToolsOrder | app/tools/base.py:84-86 | `list_tools()` has one schema per registered name, in registration order |
| ToolsBase.ToolRegistry.constructor | app/tools/base.py:65-66 | a new registry is empty and consistent |
| ToolsBase.ToolRegistry.Register | app/tools/base.py:68-70 | the mutable registry becomes the registered table and stays consistent |
| ToolsBase.ToolRegistry.Get | app/tools/base.py:72-74 | returns the lookup of the current contents |
| ToolsBase.ToolRegistry.GetOrRaise | app/tools/base.py:76-82 | returns the tool or the `ToolError` listing the available names |
| ToolsBase.ToolRegistry.ListTools | app/tools/base.py:84-86 | returns the schemas of the current contents in insertion order |
| ToolsBase.ToolRegistry.ToolNames | app/tools/base.py:88-91 | returns the names in insertion order |
| Strings.TrimStart | app/agents/reasoning.py:141 | removes exactly the leading whitespace |
| Strings.TrimEnd | app/agents/reasoning.py:141 | removes exactly the trailing whitespace |
| Strings.Strip | app/agents/reasoning.py:141 | `strip()` is the slice that remains once the whitespace at both ends is cut: it has no whitespace at either end, and everything cut is whitespace |
| Strings.StripUnpadded | app/agents/reasoning.py:141 | `strip()` leaves an unpadded string unchanged |
| Strings.Split | app/agents/reasoning.py:143 | `split("\n")` gives at least one piece, none containing the separator |
| Strings.JoinSplit | app/agents/reasoning.py:143-144 | joining the pieces of a split restores the string |
| Strings.SplitJoin | app/agents/reasoning.py:143-144 | splitting a join of separator-free pieces restores the pieces |
| Strings.SplitAround | app/agents/reasoning.py:143 | splitting around one separator splits each side |
| Strings.SplitFramed | app/agents/reasoning.py:143 | a string framed by a first and last line splits into those lines around the body's lines |
| Strings.SplitWithoutSeparator | app/agents/reasoning.py:143 | a string without the separator splits into itself |
| Strings.PyStrList | app/tools/base.py:80-81 | the rendered name list is bracketed, is `[]` exactly for no names, and is `['a']` for one name |
| Strings.PyStrListAppend | app/tools/base.py:80-81 | each further name is added quoted after ", " before the closing bracket, so the list shows every name in order |
| Strings.QuotedItemsAppend | app/tools/base.py:80-81 | the quoted items of a longer list extend those of the shorter one by ", " and the new quoted item |
| Fields.InvalidInput | app/tools/pricing.py:33-36 | a rejected input gives a failed, well-formed result whose error starts with "Invalid input: " |
| Fields.RequiredString | app/tools/pricing.py:13 | a required `str` field is accepted exactly when present as a string |
| Fields.RequiredIntInRange | app/tools/orders.py:15 | the quantity is accepted exactly when an integer in 1..100 |
| Fields.RequiredStringOfLength | app/tools/notifications.py:14-16 | a string field is accepted exactly within its length bounds |
| Fields.Choice | app/tools/notifications.py:17-22 | a `Literal` field is accepted when absent (default) or one of the allowed strings |
| Fields.OptionalString | app/tools/escalation.py:17-19 | an optional `str` field accepts absence, `null` or a string; it gives `None` exactly when the field is absent or `null`, and otherwise `Some` of that string |
| Pricing.Execute | app/tools/pricing.py:31-54 | success exactly for a catalogued string id, with its catalogue data; "Invalid input" or "Product not found: <id>" otherwise |
| Pricing.CatalogueContents | app/tools/pricing.py:17-21 | the catalogue holds exactly PROD-001..PROD-003 |
| Orders.Execute | app/tools/orders.py:26-46 | success exactly for valid fields, echoing them with an "ORD-" id and status "created" |
| Orders.OrderIdFormat | app/tools/orders.py:35 | an order id is "ORD-" followed by eight upper-case hex digits |
| Orders.ProductNotLookedUp | app/tools/orders.py:26-46 | the product id is not checked against the catalogue |
| Notifications.Preview | app/tools/notifications.py:49-51 | messages up to 50 characters are kept; longer ones become their first 50 characters plus "..." |
| Notifications.Execute | app/tools/notifications.py:32-53 | success exactly for valid fields, with defaults "email"/"normal", status "sent" and the preview |
| Escalation.Execute | app/tools/escalation.py:31-50 | success exactly for valid fields, with the fixed ticket "ESC-001", status "pending_review" and default priority "normal" |
| Escalation.ContextNotEchoed | app/tools/escalation.py:41-50 | the context is validated but does not change the result |
| Tools.RunTool | app/tools/base.py:37-47 | every built-in tool returns a well-formed result rather than raising |
| Tools.BuiltinExecutorOutcome | app/agents/dispatcher.py:33 | `execute(**arguments)` raises exactly for a "self" argument and otherwise returns a well-formed result |
| Tools.CreateRegistry | app/tools/__init__.py:9-13 | the start-up registry is fresh, consistent and holds the four tools |
| Tools.DefaultTableContents | app/tools/__init__.py:9-13 | the registry maps the four names to their tools, in registration order |
| Tools.DefaultRegistry | app/tools/__init__.py:9-13 | the start-up registry is consistent, lists four names and looks each up to its tool |
| Tools.DefaultLookups | app/tools/__init__.py:9-13 | each registered name looks up to the tool registered under it |
| Tools.OnlyPricingIsReadOnly | app/tools/pricing.py:29 | among the registered tools, only `get_pricing` has no side effects |
| Dispatcher.DispatchTool | app/agents/dispatcher.py:11-51 | an unknown name fails with the registry's message; a tool's result is returned as is; a `ToolError` keeps its message; any other exception becomes "Tool execution failed: ..." |
| Dispatcher.Caught | app/agents/dispatcher.py:43-51 | a caught exception becomes a failed, well-formed result |
| Dispatcher.BuiltinDispatchWellFormed | app/agents/dispatcher.py:28-51 | dispatching to the built-in tools always yields a well-formed result |
| Dispatcher.InvalidArgumentsFail | app/agents/dispatcher.py:28-41 | an out-of-range order quantity fails with "Invalid input: ..." |
| Prompts.ToolLine | app/agents/prompts.py:92-97 | a tool line starts with the bold name and description, and ends with the side-effect note exactly when the tool has side effects |
| Prompts.FormatTools | app/agents/prompts.py:89-98 | the loop builds the newline-joined listing of the tool lines |
| Prompts.ListingLines | app/agents/prompts.py:89-98 | a listing of single-line tools splits back into exactly its tool lines |
| Prompts.PromptWithoutTools | app/agents/prompts.py:13-15 | with no tools, the prompt says none are available and offers no `use_tool` option or example |
| Prompts.PromptWithTools | app/agents/prompts.py:16-86 | with tools, the prompt lists them after its head and offers `"use_tool"` with its example |
| Prompts.BuildSystemPrompt | app/agents/prompts.py:4-86 | filling the three slots only when there are tools, and running the listing loop, builds exactly the prompt `SystemPrompt` describes |
| Prompts.PromptListsRegistry | app/agents/reasoning.py:32-35 | the prompt's listing has one line per registered tool, in order, each naming and describing it and flagging side effects |
| Reasoning.ReasoningAgent.FormatTask | app/agents/reasoning.py:113-121 | the message is exactly "Task: <task>", followed by "\n\nContext:\n" and the indented context dump exactly when a context is given and non-empty |
| Reasoning.ReasoningAgent.FormatObservation | app/agents/reasoning.py:123-137 | the message is exactly "Tool '<name>' ", then "executed successfully." and the result dump for a success or "failed." and the error for a failure, then the closing question; it starts with the success verdict exactly for a success |
| Reasoning.ReasoningAgent.Turns | app/agents/reasoning.py:86-109 | two turns per observation |
| Reasoning.ReasoningAgent.TurnsInOrder | app/agents/reasoning.py:86-109 | each observation gives an assistant replay of the call followed by a user turn with its result, in order |
| Reasoning.ReasoningAgent.TurnsAppend | app/agents/reasoning.py:87-109 | one more observation appends its two turns |
| Reasoning.ReasoningAgent.ReplayTurns | app/agents/reasoning.py:86-109 | the loop over the observations builds exactly their turns |
| Reasoning.ReasoningAgent.Messages | app/agents/reasoning.py:75-111 | the system prompt, then the task, then the turns of the observations given |
| Reasoning.ReasoningAgent.BuildMessages | app/agents/reasoning.py:75-111 | the loop builds exactly that message list |
| Reasoning.ReasoningAgent.Reason | app/agents/reasoning.py:37-73 | the model is asked once; its error passes through; a reply is parsed; the only other failures are the two parse errors and `AttributeError` |
| Reasoning.Clean | app/agents/reasoning.py:141-144 | an unfenced reply is just stripped |
| Reasoning.SchemaError | app/agents/reasoning.py:159-161 | schema failures are `ValueError`s with the schema prefix |
| Reasoning.ToolCallField | app/schemas/task.py:37-47 | `tool_call` accepts `null` or an object with a string `tool_name` and optional object `arguments`; `null` gives no call, and an accepted object gives the call with its `tool_name` and its `arguments` (`{}` when absent) |
| Reasoning.ValidateDecision | app/agents/reasoning.py:152-161 | a non-object raises `AttributeError`; an object is accepted exactly when it fits the schema, and the decision then carries its decision type, its reasoning ("" when absent), its message, and the tool call `ToolCallField` reads from it: the object's `tool_name` and its `arguments` (`{}` when absent) |
| Reasoning.ParseDecision | app/agents/reasoning.py:139-163 | undecodable text is a "not valid JSON" `ValueError`; decoded text gives the outcome of validating the decoded value, so a decision results exactly for an acceptable object |
| Reasoning.DecisionRoundTrip | app/agents/reasoning.py:152-158 | a decision written as JSON validates back to itself |
| Reasoning.ReplayedCallIsDecision | app/agents/reasoning.py:89-103 | the replayed assistant turn is itself a valid `use_tool` decision |
| Reasoning.FenceRemoved | app/agents/reasoning.py:141-144 | a fenced reply cleans to the text between its first and last lines |
| Reasoning.FenceUnwrapped | app/agents/reasoning.py:143-144 | dropping a fenced reply's first and last lines and joining the rest gives back the body |
| Reasoning.CleanFenced | app/agents/reasoning.py:141-144 | a fenced reply whose closing line does not end in whitespace is cleaned by unfencing it |
| Reasoning.FenceUnpadded | app/agents/reasoning.py:141-142 | a fenced reply with a non-blank closing is unchanged by `strip()` and starts with the fence |
| Reasoning.FencedParsesAlike | app/agents/reasoning.py:139-163 | a fenced reply parses exactly as the unfenced reply |
| Reasoning.FencedCleansAlike | app/agents/reasoning.py:141-144 | a fenced reply cleans to what the unfenced reply cleans to |
| Reasoning.CleanUnfenced | app/agents/reasoning.py:141-142 | an unpadded, unfenced reply is left as is |
| Reasoning.ParsedThroughClean | app/agents/reasoning.py:141-147 | parsing depends on the reply only through its cleaned text |
| Reasoning.OneLineFenceIsEmpty | app/agents/reasoning.py:142-144 | a one-line fenced reply cleans to the empty text |
| Reasoning.MissingDecisionType | app/agents/reasoning.py:152-161 | an object without `decision_type` is rejected as "None is not a valid DecisionType" |
| Reasoning.MissingTag | app/agents/reasoning.py:154 | validation of such an object gives that error |
| TaskService.Passed | app/services/task_service.py:43 | the observations are passed as `None` exactly when there are none |
| TaskService.StatusFor | app/services/task_service.py:121-127 | respond/clarify/escalate map to success/needs-input/escalated, and `use_tool` to failed |
| TaskService.ToolCallEntryRoundTrip | app/services/task_service.py:133-141 | a `tool_calls` entry reads back as its observation |
| TaskService.ToolCallEntries | app/services/task_service.py:132-141 | one entry per observation, each reading back as it |
| TaskService.ObservationDumps | app/services/task_service.py:69 | one dump per observation, each reading back as it |
| TaskService.DecisionToResponse | app/services/task_service.py:116-147 | status by decision type, message or "", the reasoning, and `tool_calls` exactly when there are observations |
| TaskService.StepLimitResponse | app/services/task_service.py:62-71 | a failed response with the step-limit message, the iteration count and the dumped observations |
| TaskService.FailureResponse | app/services/task_service.py:73-86 | a failed response whose message tells `ValueError` from other exceptions, with the error text |
| TaskService.Service.ExecuteAndObserve | app/services/task_service.py:89-113 | a missing tool call is a failed "unknown" observation; otherwise the dispatch result is recorded under the tool's name |
| TaskService.Service.Execution | app/services/task_service.py:34-71 | observations only grow, up to five; the loop is exhausted exactly at five; a decision that ends it is terminal |
| TaskService.Service.ExecutionSteps | app/services/task_service.py:38-60 | each observation comes from a `use_tool` decision on the history before it, and the final decision or error is the engine's answer on the full history |
| TaskService.Service.ProcessTask | app/services/task_service.py:25-86 | the `while` loop returns the response of the specified execution |
| TaskService.Service.FailsUnlessDecided | app/services/task_service.py:25-86 | the response is failed exactly when no terminal decision ended the loop |
| TaskService.Service.EndlessToolUse | app/services/task_service.py:38-71 | an engine that always picks a tool runs five steps and gets the step-limit response with 5 iterations |
| TaskService.Service.ImmediateDecision | app/services/task_service.py:43-51 | a first terminal decision returns at once, without `tool_calls` |
| TaskService.Service.EngineErrorEnds | app/services/task_service.py:73-86 | an engine error ends the loop with its message in `data.error` |
| TaskService.BuiltinObservationsConsistent | app/services/task_service.py:89-113 | with the built-in tools, every observation has a result exactly when it succeeded, and an error exactly when it failed |

## Left out

- HTTP endpoints, configuration, logging and the application entry point: they do not affect the core's decisions.
- The language model client is a function parameter. Its temperature and model settings are not modelled.
- `json.dumps` and `json.loads` are abstract functions of a codec parameter. Dict key order and the exact text layout
  of a dump are therefore not modelled.
- JSON floats are not modelled. The catalogue prices are kept in integer cents.
- `uuid.uuid4()` in order creation becomes a parameter: the eight hex digits of the order id.
- Pydantic's error wording is replaced by a short description of the rejected field. Only one rejected field is
  reported. The "Invalid input: " prefix is kept.
- Pydantic's lax coercions (for example the string "5" accepted as the integer 5) are not modelled. Only JSON values
  of the declared type are accepted.
- Reasoning.Repr: the `repr()` of a bad `decision_type` value in the schema error is written out for `None`,
  booleans, integers and strings. Lists and dicts are rendered as placeholders, and Python's quote escaping is not
  modelled.
- Strings.PyStrList: Python's quote escaping in `str(list)` is not modelled. Names containing `'`, `\` or
  non-printable characters would be rendered differently; the four registered names contain none of them.
- Reasoning.ReasoningAgent.Turns: its own contract states only the number of turns. Their order and contents are
  stated by `TurnsInOrder`.
- Reasoning.ForRegistry: the system prompt is built once from the registry and stored in the agent, not rebuilt on
  every call. The registry is read-only after start-up, so the text is the same.
- Prompts.SystemPrompt: the prompt's fixed wording is a string constant. Only its structure (listing, `use_tool`
  option, example) is proved, not its prose.
- Reasoning.Clean: the contract states only the unfenced case. The fenced case is stated by `FenceRemoved`,
  `FencedCleansAlike` and `OneLineFenceIsEmpty`.
- The decision parser makes one attempt; there is no retry.
- An empty task string is accepted, as in the code.
- A `use_tool` decision may lack a tool call. The code handles this in the loop with an "unknown" observation, and
  so does the model.
- Concurrency and multiple tasks at once: every task's loop state is local, and the registry is read-only.

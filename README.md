# pen-editor-backend: chat gateway core in Dafny

pen-editor-backend is a small HTTP gateway. It receives a conversation from
the Pencil design editor and streams it to a language model together with a
registry of editor tools. The model in this project covers three parts of it.

- **The chat route** (`Chat`, `src/routes/chat.ts`):
  - validation of the request body (`messages` non-empty records, optional
    string `canvasContext` and `model`, `agentMode` either `"edits"` or `"fast"`);
  - the 400 response for a refused body;
  - the session a valid body starts: model override, mode, base system prompt
    and step cap, which is 6 in fast mode and 3 otherwise;
  - the *step gate*, `prepareStep`. Before every model step it hides
    `batch_design` until the history of finished steps holds the required
    calls. In edits mode that is a `get_guidelines` call with topic
    `"design-system"`. Fast mode also needs a `get_variables` call and a
    `find_empty_space_on_canvas` call. While the gate is locked it replaces
    the system prompt with a mandatory-rules text.
- **The tool registry** (`PenTools`, `src/ai/tools.ts`):
  - thirteen tools in declaration order;
  - which three of them run locally: `get_guidelines`,
    `get_style_guide_tags` and `get_style_guide`;
  - those three lookups themselves.
- **The system prompt builder** (`SystemPrompt`, `src/ai/system-prompt.ts`):
  the core text, followed by the canvas context section when one was sent.

`Js` holds the JavaScript semantics the code relies on:
- `??` treats `undefined` and `null` alike;
- a strict `===` against a string property;
- `Array.prototype.join`;
- JSON values.

The gate is stated in two readings:
- `SomeStep`/`SomeCall` are the front-to-back `.some` scans as written;
- `Recorded` is a reference reading: some call of some step satisfies the
  prerequisite.

`SomeStepIff` proves the two agree. Every gate property is then stated over
`Unlocked`, which is defined on the reference reading.

`PrepareStep` takes the registry's name list as a parameter, as the route's
closure captures `allToolNames`. `PenToolsGate` and `ToolsWithoutBatchDesign`
instantiate it with the real registry.

The route calls the prompt builder with the agent mode as a second argument.
The builder declares only the canvas context, so the mode has no effect on
the prompt; `SystemPromptIgnoresMode` states this.

## Model

| member | source | states |
|---|---|---|
| Js.Coalesce | src/routes/chat.ts:35 | `a ?? b` yields `a` unless it is `undefined` or `null`, and `b` otherwise |
| Js.Join | src/ai/system-prompt.ts:8 | joining no parts gives the empty string; one part gives that part; otherwise the first part is a prefix of the result |
| Js.JoinSnoc | src/ai/system-prompt.ts:8 | joining two or more parts is the join of all but the last, then the separator, then the last part |
| Chat.AsRecords | src/routes/chat.ts:16 | the array is accepted exactly when every element is an object, and each element is kept as its field map |
| Chat.OptionalString | src/routes/chat.ts:17-18 | an optional string property is accepted exactly when absent or a string; absent gives `None` and a present string gives `Some` of that string |
| Chat.OptionalAgentMode | src/routes/chat.ts:19 | `agentMode` is accepted exactly when absent, `"edits"` or `"fast"`, and it is fast exactly on `"fast"` |
| Chat.ParseChatBody | src/routes/chat.ts:15-20 | the body parses exactly when it meets the schema property by property; the messages are the body's records in order (at least one); `canvasContext` and `model` are carried over unchanged; a mode is present exactly when `agentMode` is, and it is fast exactly on `"fast"` |
| Chat.HandleChat | src/routes/chat.ts:43-58 | 400 with "Invalid request body" exactly when the schema refuses; otherwise a session whose messages are the body's records in order, with cap 6 in fast mode and 3 otherwise, the prompt built from the canvas context, and the model override taken from `model` |
| Chat.StepCap | src/routes/chat.ts:121 | the cap is 6 exactly in fast mode and 3 exactly in edits mode |
| Chat.EmptyMessagesRejected | src/routes/chat.ts:16 | a body with no messages, or an empty list, gets the 400 response |
| Chat.UnknownAgentModeRejected | src/routes/chat.ts:19 | a mode other than the two known strings is refused |
| Chat.AgentModeSelection | src/routes/chat.ts:55 | fast mode exactly when the body says `"fast"`; without `agentMode`, edits mode with three steps |
| Chat.SystemPromptIgnoresMode | src/routes/chat.ts:58 | switching `agentMode` between the two valid values keeps the body valid and leaves the base system prompt unchanged |
| Chat.Payload | src/routes/chat.ts:35 | the payload is `args` when present, else `input` when present, else the empty object |
| Chat.CallsOf | src/routes/chat.ts:32 | `step.toolCalls ?? []`: the recorded calls when present, no calls otherwise |
| Chat.Satisfies | src/routes/chat.ts:33-36 | a call meets a prerequisite only if it names a tool; it meets a tool prerequisite exactly when it names that tool; it meets the guidelines prerequisite only if it names `get_guidelines` and its payload is an object |
| Chat.SomeCallIff | src/routes/chat.ts:32-37 | the scan of one step's calls holds exactly when some call satisfies the prerequisite |
| Chat.SomeStepIff | src/routes/chat.ts:31-38 | the nested scans hold exactly when some call of some step satisfies the prerequisite |
| Chat.HasDesignSystemGuidelinesCall | src/routes/chat.ts:22-39 | the check holds exactly when some call of some step is a `get_guidelines` call with topic `"design-system"` |
| Chat.HasDesignSystemGuidelinesCallIff | src/routes/chat.ts:22-39 | the check holds exactly when some call names `get_guidelines` with topic `"design-system"`, read from `args` when it is present and from `input` otherwise |
| Chat.Without | src/routes/chat.ts:64-66 | the filtered list holds exactly the names other than the removed one, each as often as in the input (its multiset is the input's with the removed name's count set to zero), and is no longer than the input |
| Chat.WithoutSingleOccurrence | src/routes/chat.ts:64-66 | filtering out a name that occurs once keeps all the other names in their order |
| Chat.WithoutAbsent | src/routes/chat.ts:64-66 | filtering out an absent name changes nothing |
| Chat.WithoutAppend | src/routes/chat.ts:64-66 | filtering a concatenation is the concatenation of the filtered parts, so the filter keeps the input's order |
| Chat.ToolsWithoutBatchDesign | src/routes/chat.ts:63-66 | for the real registry, the filtered list is the registry names with position 5 (`batch_design`) removed: twelve names in registry order |
| Chat.MandatoryInstruction | src/routes/chat.ts:67-77 | the override text is the base prompt, a blank line, then exactly the fast-mode rules in fast mode and the edits rule in edits mode |
| Chat.MandatoryInstructionsDiffer | src/routes/chat.ts:67-77 | for any base prompt the edits and fast override texts differ |
| Chat.UnlockCheckIff | src/routes/chat.ts:92-104 | the checks the callback computes agree with the reference unlock condition in both modes |
| Chat.PrepareStep | src/routes/chat.ts:84-120 | when unlocked: all tools and no override; when locked: the tools without `batch_design` plus the mode's mandatory instruction; `batch_design` is offered exactly when unlocked and registered |
| Chat.PenToolsGate | src/routes/chat.ts:63-120 | with the real registry, `batch_design` is offered exactly when the gate is unlocked; while locked, the other twelve tools are offered in registry order |
| Chat.RecordedInLargerHistory | src/routes/chat.ts:31-38 | a prerequisite found in a history is found in any history that contains its steps |
| Chat.UnlockedInLargerHistory | src/routes/chat.ts:92-115 | unlocking depends only on which steps the history contains |
| Chat.GateNeverRelocks | src/routes/chat.ts:84-120 | once `batch_design` is offered it stays offered for every extension of the history, with no override text |
| Chat.GateIgnoresStepOrder | src/routes/chat.ts:84-120 | histories with the same steps in any order get the same settings |
| Chat.GateNeverUnlocksEarly | src/routes/chat.ts:92-115 | edits mode offers `batch_design` exactly after a design-system guidelines call; fast mode offers it only after all three prerequisites, and then edits mode does too |
| Chat.EditsUnlockDoesNotImplyFast | src/routes/chat.ts:94-115 | a single design-system guidelines call unlocks edits mode but not fast mode |
| Chat.FastStillLockedWithoutEmptySpaceLookup | src/routes/chat.ts:98-108 | in fast mode, guidelines plus `get_variables` without `find_empty_space_on_canvas` still gets the locked settings with the fast rules |
| Chat.GateTrace | src/routes/chat.ts:84-121 | a run prepares at most as many steps as the model produced, and at most the mode's cap |
| Chat.GateTraceEntry | src/routes/chat.ts:84-92 | step `k` of a run is prepared from the `k` steps before it |
| Chat.UnlockedOnLongerPrefix | src/routes/chat.ts:84-120 | unlocking for a prefix of the run carries over to every longer prefix |
| Chat.GateTraceProperties | src/routes/chat.ts:84-121 | over one run: at most 6 steps in fast mode and 3 otherwise; the first step is always locked with the mandatory instruction; once `batch_design` is offered, every later step offers it |
| PenTools.Names | src/ai/tools.ts:4-440 | `Object.keys` of the registry: one name per entry, in declaration order |
| PenTools.AllToolNames | src/routes/chat.ts:63 | `Object.keys(penTools)`: thirteen names |
| PenTools.ToolNamed | src/ai/tools.ts:4-440 | a lookup by name returns a registered tool with that name, or `None` when no tool has it |
| PenTools.ToolNamedFirstMatch | src/ai/tools.ts:4-440 | the lookup finds the entry whose name no earlier entry has |
| PenTools.NamesDistinct | src/ai/tools.ts:7-399 | distinct tools have distinct registry keys |
| PenTools.RegistryNamesDistinct | src/ai/tools.ts:4-440 | the registry holds thirteen pairwise distinct names |
| PenTools.RegistryMembers | src/ai/tools.ts:140-148 | `batch_design` is at position 5 and `get_guidelines` at position 10 of the registry names |
| PenTools.ScreenshotNotRegistered | src/ai/tools.ts:132-138 | the commented-out `get_screenshot` is not among the registry names |
| PenTools.NoScreenshotAmong | src/ai/tools.ts:132-138 | no list of tools contains a `get_screenshot` entry |
| PenTools.NoToolIsScreenshot | src/ai/tools.ts:132-138 | no tool is named `get_screenshot` |
| PenTools.RegistryLookup | src/ai/tools.ts:4-440 | looking up the name of any registry entry finds that entry |
| PenTools.ToolNamedUnique | src/ai/tools.ts:4-440 | because keys are unique, a lookup by name finds the one tool with that key |
| PenTools.RunsLocally | src/ai/tools.ts:316-412 | a name runs locally exactly when the registry has a tool under that key that has an `execute` |
| PenTools.LocalToolsAreExactlyThree | src/ai/tools.ts:316-412 | a name runs locally exactly when it is `get_guidelines`, `get_style_guide_tags` or `get_style_guide` |
| PenTools.BatchDesignIsDeclarative | src/ai/tools.ts:148-191 | `batch_design` has no local execute |
| PenTools.GuidelineText | src/ai/tools.ts:317-371 | every guideline entry is non-empty |
| PenTools.Lookup | src/ai/tools.ts:373-378 | indexing the table gives `undefined` exactly for a non-key, and otherwise the text of the topic with that key |
| PenTools.GuidelinesFor | src/ai/tools.ts:316-379 | an error exactly for a topic that is not a table key, with the text "Invalid topic. Available topics: " followed by the keys joined with ", "; otherwise the topic is echoed with that topic's non-empty text |
| PenTools.GuidelineKeys | src/ai/tools.ts:317-371 | the table keys in insertion order: design-system, code, table, tailwind, landing-page |
| PenTools.TopicKeyInjective | src/ai/tools.ts:317-371 | distinct topics have distinct keys |
| PenTools.GuidelinesForEveryTopic | src/ai/tools.ts:316-379 | every table topic gets its own text back |
| PenTools.SchemaAdmitsExactlyTableKeys | src/ai/tools.ts:311-317 | the input enum admits exactly the table's keys |
| PenTools.GuidelinesErrorOnlyOutsideSchema | src/ai/tools.ts:311-379 | a topic gets guidelines exactly when the input enum admits it; any other topic gets the error listing the five keys in table order |
| PenTools.StyleGuideTags | src/ai/tools.ts:386-396 | the catalogue has five categories |
| PenTools.Categories | src/ai/tools.ts:388-394 | the category names of a catalogue, in order |
| PenTools.StyleGuideTagCategories | src/ai/tools.ts:386-396 | the categories are style, color, industry, platform and layout, each with at least one tag |
| PenTools.StyleGuideFor | src/ai/tools.ts:412-415 | `name` defaults to "Generated Style Guide" and `basedOn` to the empty list |
| PenTools.StyleGuideOnlyEchoesInput | src/ai/tools.ts:412-437 | two results differ at most in `name` and `basedOn`, and equal names give equal `name` fields |
| SystemPrompt.PromptParts | src/ai/system-prompt.ts:1-6 | the core text comes first; a second part is added exactly when the context is truthy, and it is the heading followed by the context |
| SystemPrompt.BuildSystemPrompt | src/ai/system-prompt.ts:1-9 | without a truthy context the prompt is the core text; with one it is the core text, a newline, the heading and the context |
| SystemPrompt.PromptFraming | src/ai/system-prompt.ts:1-9 | the prompt always starts with the core text and, when a context was given, ends with it verbatim |

## Left out

- Streaming, HTTP transport, CORS, the Fastify server and configuration: I/O around the modelled logic.
- Provider selection (`createModel`): `src/ai/provider.ts` is not part of this model; the session keeps the override it is passed.
- The loop of the AI SDK's `streamText`: the library is not part of this model. `GateTrace` stands for it: step `k` is prepared from the `k` finished steps, and the run stops at the cap. Model replies and tool results are not modelled.
- Chat.GateTrace: admits every sequence of steps as a run. The SDK is expected to continue only while every call of the last step got a result, and only the three local tools produce one. A call of any other tool (`get_variables`, `find_empty_space_on_canvas`, `batch_design`, ...) would then end the request, and the editor's next request would start with an empty step history. Under that behaviour fast mode could not unlock `batch_design` within one request. The library's code is not part of this model, so this is not proved; the gate lemmas hold for every run, including those the SDK never produces.
- Chat.HandleChat: answers with a session for every body the schema accepts. Message conversion (`convertToModelMessages`, chat.ts:60) may still throw on records that are not UI messages, such as `{"messages":[{}]}`, which would end in a server error rather than a stream. The converter is library code and is not part of this model.
- Session logging and token usage reporting (`onFinish`, `logSession`): output only.
- The `details` field of the 400 response (zod's formatted error tree): library output; only the status and `error` text are modelled.
- The input schemas and descriptions of the ten declarative tools: the editor client carries these tools out, and the gateway never reads their arguments.
- The batch-edit mini-script of `batch_design`: the gateway never interprets it.
- The full core prompt and guideline texts: they are abbreviated to their opening words. The code treats them as opaque, non-empty strings.
- PenTools.Lookup: a key inherited from `Object.prototype` (such as `"constructor"`) is treated as absent. Schema validation keeps such keys from reaching the lookup.
- JSON numbers are integers: no number in a request body or tool payload is inspected.

/** The chat route: validation of the request body, the per-step tool gate
    that keeps `batch_design` out of the model's reach until prerequisite
    tools have been called, and the cap on the number of model steps. */
module Chat {
  import opened Js
  import PenTools
  import SystemPrompt

  /** Selects the gating policy and the step cap of one request. */
  datatype AgentMode = Edits | Fast

  // ── Request body ──────────────────────────────────────────────────

  /** The outcome of schema validation. */
  datatype Parsed<T> = Rejected | Accepted(value: T)

  /** A request body that passed the schema. Unknown properties are dropped. */
  datatype ChatBody = ChatBody(
    messages: seq<map<string, JsonValue>>,
    canvasContext: Option<string>,
    model: Option<string>,
    agentMode: Option<AgentMode>)

  /** Every element is an object (`z.record`): arrays, `null` and primitives are not. */
  function AsRecords(elems: seq<JsonValue>): (r: Parsed<seq<map<string, JsonValue>>>)
    ensures r.Accepted? <==> forall i :: 0 <= i < |elems| ==> elems[i].JObj?
    ensures r.Accepted? ==> |r.value| == |elems| && forall i :: 0 <= i < |elems| ==> r.value[i] == elems[i].fields
  {
    if |elems| == 0 then Accepted([])
    else if !elems[0].JObj? then Rejected
    else match AsRecords(elems[1..])
      case Rejected => Rejected
      case Accepted(rest) => Accepted([elems[0].fields] + rest)
  }

  /** `z.string().optional()` on property `key`: absent, or a string (`null` is refused). */
  function OptionalString(fields: map<string, JsonValue>, key: string): (r: Parsed<Option<string>>)
    ensures r.Accepted? <==> key !in fields || fields[key].JStr?
    ensures r == Accepted(None) <==> key !in fields
    ensures key in fields && fields[key].JStr? ==> r == Accepted(Some(fields[key].s))
  {
    if key !in fields then Accepted(None)
    else if fields[key].JStr? then Accepted(Some(fields[key].s))
    else Rejected
  }

  /** `z.enum(["edits", "fast"]).optional()` on `agentMode`. */
  function OptionalAgentMode(fields: map<string, JsonValue>): (r: Parsed<Option<AgentMode>>)
    ensures r.Accepted? <==> "agentMode" !in fields || fields["agentMode"] == JStr("edits") || fields["agentMode"] == JStr("fast")
    ensures r == Accepted(None) <==> "agentMode" !in fields
    ensures r == Accepted(Some(Fast)) <==> "agentMode" in fields && fields["agentMode"] == JStr("fast")
  {
    if "agentMode" !in fields then Accepted(None)
    else if fields["agentMode"] == JStr("edits") then Accepted(Some(Edits))
    else if fields["agentMode"] == JStr("fast") then Accepted(Some(Fast))
    else Rejected
  }

  /** The body schema, stated property by property. */
  ghost predicate SchemaAccepts(body: JsonValue) {
    && body.JObj?
    && "messages" in body.fields
    && body.fields["messages"].JArr?
    && |body.fields["messages"].elems| >= 1
    && (forall i :: 0 <= i < |body.fields["messages"].elems| ==> body.fields["messages"].elems[i].JObj?)
    && ("canvasContext" !in body.fields || body.fields["canvasContext"].JStr?)
    && ("model" !in body.fields || body.fields["model"].JStr?)
    && ("agentMode" !in body.fields || body.fields["agentMode"] in [JStr("edits"), JStr("fast")])
  }

  /** The string a validated body holds under `key`, if any. */
  function StringField(fields: map<string, JsonValue>, key: string): Option<string> {
    if key in fields && fields[key].JStr? then Some(fields[key].s) else None
  }

  /** `chatBodySchema.safeParse(body)`. */
  function ParseChatBody(body: JsonValue): (r: Parsed<ChatBody>)
    ensures r.Accepted? <==> SchemaAccepts(body)
    ensures r.Accepted? ==> |body.fields["messages"].elems| >= 1
    ensures r.Accepted? ==>
      r.value.messages == seq(|body.fields["messages"].elems|, i requires 0 <= i < |body.fields["messages"].elems| =>
                                body.fields["messages"].elems[i].fields)
    ensures r.Accepted? ==> (r.value.agentMode.Some? <==> "agentMode" in body.fields)
    ensures r.Accepted? ==> (r.value.agentMode == Some(Fast) <==> "agentMode" in body.fields && body.fields["agentMode"] == JStr("fast"))
    ensures r.Accepted? ==> r.value.canvasContext == StringField(body.fields, "canvasContext")
    ensures r.Accepted? ==> r.value.model == StringField(body.fields, "model")
  {
    if !body.JObj? then Rejected
    else
      var fields := body.fields;
      if "messages" !in fields || !fields["messages"].JArr? || |fields["messages"].elems| < 1 then Rejected
      else
        match (AsRecords(fields["messages"].elems), OptionalString(fields, "canvasContext"),
               OptionalString(fields, "model"), OptionalAgentMode(fields))
        case (Accepted(messages), Accepted(canvasContext), Accepted(model), Accepted(agentMode)) =>
          Accepted(ChatBody(messages, canvasContext, model, agentMode))
        case _ => Rejected
  }

  // ── The session a valid request starts ────────────────────────────

  /** What the route hands to the streaming loop: the model override given to
      the provider factory, the mode, the base system prompt, the conversation
      and the step cap. */
  datatype Session = Session(
    modelOverride: Option<string>,
    mode: AgentMode,
    system: string,
    messages: seq<map<string, JsonValue>>,
    stepCap: nat)

  datatype Response =
    | BadRequest(status: nat, error: string)
    | Streamed(session: Session)

  /** `stopWhen: stepCountIs(agentMode === "fast" ? 6 : 3)`. */
  function StepCap(mode: AgentMode): (r: nat)
    ensures r == 6 <==> mode == Fast
    ensures r == 3 <==> mode.Edits?
  {
    if mode == Fast then 6 else 3
  }

  /** The route handler up to the start of streaming. A body the schema refuses
      gets a 400 and no session, so no model is created. `agentMode` defaults
      to `edits`. The prompt builder takes only the canvas context: the mode
      passed beside it is ignored. */
  function HandleChat(body: JsonValue): (r: Response)
    ensures r.BadRequest? <==> !SchemaAccepts(body)
    ensures r.BadRequest? ==> r.status == 400 && r.error == "Invalid request body"
    ensures r.Streamed? ==> |r.session.messages| >= 1
    ensures r.Streamed? ==>
      r.session.messages == seq(|body.fields["messages"].elems|, i requires 0 <= i < |body.fields["messages"].elems| =>
                                  body.fields["messages"].elems[i].fields)
    ensures r.Streamed? ==> r.session.stepCap == (if r.session.mode == Fast then 6 else 3)
    ensures r.Streamed? ==> r.session.system == SystemPrompt.BuildSystemPrompt(StringField(body.fields, "canvasContext"))
    ensures r.Streamed? ==> r.session.modelOverride == StringField(body.fields, "model")
  {
    match ParseChatBody(body)
    case Rejected => BadRequest(400, "Invalid request body")
    case Accepted(b) =>
      var mode := b.agentMode.GetOr(Edits);
      Streamed(Session(b.model, mode, SystemPrompt.BuildSystemPrompt(b.canvasContext), b.messages, StepCap(mode)))
  }

  /** An empty `messages` list, or none at all, is refused with status 400. */
  lemma {:induction false} EmptyMessagesRejected(body: JsonValue)
    requires body.JObj?
    requires "messages" !in body.fields || body.fields["messages"] == JArr([])
    ensures HandleChat(body) == BadRequest(400, "Invalid request body")
  {
  }

  /** A mode other than the two known strings is refused. */
  lemma {:induction false} UnknownAgentModeRejected(body: JsonValue)
    requires body.JObj? && "agentMode" in body.fields
    requires body.fields["agentMode"] != JStr("edits") && body.fields["agentMode"] != JStr("fast")
    ensures HandleChat(body).BadRequest?
  {
  }

  /** A valid request selects fast mode, and six steps, exactly when it says
      `"fast"`; without `agentMode` it runs in edits mode with three steps. */
  lemma {:induction false} AgentModeSelection(body: JsonValue)
    requires SchemaAccepts(body)
    ensures HandleChat(body).Streamed?
    ensures HandleChat(body).session.mode == Fast <==> "agentMode" in body.fields && body.fields["agentMode"] == JStr("fast")
    ensures "agentMode" !in body.fields ==> HandleChat(body).session.mode == Edits && HandleChat(body).session.stepCap == 3
  {
    var fields := body.fields;
    var r := OptionalAgentMode(fields);
    assert r.Accepted?;
  }

  /** Changing only `agentMode` leaves the base system prompt unchanged: both
      modes get the same prompt for the same canvas context. */
  lemma {:induction false} SystemPromptIgnoresMode(body: JsonValue, mode: string)
    requires SchemaAccepts(body)
    requires mode == "edits" || mode == "fast"
    ensures SchemaAccepts(JObj(body.fields["agentMode" := JStr(mode)]))
    ensures HandleChat(JObj(body.fields["agentMode" := JStr(mode)])).session.system == HandleChat(body).session.system
  {
    var other := JObj(body.fields["agentMode" := JStr(mode)]);
    assert other.fields["messages"] == body.fields["messages"];
    assert StringField(other.fields, "canvasContext") == StringField(body.fields, "canvasContext");
  }

  // ── The step gate ─────────────────────────────────────────────────

  /** One tool call as the step history records it. `None` stands for a
      missing property; a `null` tool name is `None` as well, while a `null`
      payload is `Some(JNull)`, which `IsNullish` treats like a missing one. */
  datatype ToolCall = ToolCall(toolName: Option<string>, args: Option<JsonValue>, input: Option<JsonValue>)

  /** One finished model step; only its tool calls matter to the gate. */
  datatype Step = Step(toolCalls: Option<seq<ToolCall>>)

  /** `step.toolCalls ?? []`. */
  function CallsOf(step: Step): (r: seq<ToolCall>)
    ensures step.toolCalls.Some? ==> r == step.toolCalls.value
    ensures step.toolCalls.None? ==> r == []
  {
    step.toolCalls.GetOr([])
  }

  /** `call.args ?? call.input ?? {}`: where the call's arguments are read from. */
  function Payload(call: ToolCall): (r: JsonValue)
    ensures !IsNullish(call.args) ==> r == call.args.value
    ensures IsNullish(call.args) && !IsNullish(call.input) ==> r == call.input.value
    ensures IsNullish(call.args) && IsNullish(call.input) ==> r == JObj(map[])
  {
    Coalesce(call.args, Coalesce(call.input, JObj(map[])))
  }

  /** What the gate looks for in the history. */
  datatype Prerequisite =
    | DesignSystemGuidelines   // get_guidelines with topic "design-system"
    | CalledTool(name: string) // any call of the named tool

  /** Whether one call meets a prerequisite: it must name the right tool, and
      for the guidelines prerequisite also carry topic `"design-system"`. */
  predicate Satisfies(call: ToolCall, p: Prerequisite): (r: bool)
    ensures r ==> call.toolName.Some?
    ensures p.CalledTool? ==> (r <==> call.toolName == Some(p.name))
    ensures p.DesignSystemGuidelines? && r ==> call.toolName == Some("get_guidelines") && Payload(call).JObj?
  {
    match p
    case DesignSystemGuidelines =>
      call.toolName == Some("get_guidelines") && PropertyIsString(Payload(call), "topic", "design-system")
    case CalledTool(name) =>
      call.toolName == Some(name)
  }

  /** `calls.some(...)`, scanning from the front. */
  predicate SomeCall(calls: seq<ToolCall>, p: Prerequisite) {
    |calls| > 0 && (Satisfies(calls[0], p) || SomeCall(calls[1..], p))
  }

  /** `steps.some(step => (step.toolCalls ?? []).some(...))`. */
  predicate SomeStep(steps: seq<Step>, p: Prerequisite) {
    |steps| > 0 && (SomeCall(CallsOf(steps[0]), p) || SomeStep(steps[1..], p))
  }

  /** The reference reading: some call of some step satisfies `p`. */
  ghost predicate Recorded(steps: seq<Step>, p: Prerequisite) {
    exists i, j :: 0 <= i < |steps| && 0 <= j < |CallsOf(steps[i])| && Satisfies(CallsOf(steps[i])[j], p)
  }

  lemma {:induction false} SomeCallIff(calls: seq<ToolCall>, p: Prerequisite)
    ensures SomeCall(calls, p) <==> exists j :: 0 <= j < |calls| && Satisfies(calls[j], p)
  {
    if |calls| > 0 {
      SomeCallIff(calls[1..], p);
      if exists j :: 0 <= j < |calls| && Satisfies(calls[j], p) {
        var j :| 0 <= j < |calls| && Satisfies(calls[j], p);
        if j > 0 {
          assert Satisfies(calls[1..][j - 1], p);
        }
      }
    }
  }

  /** The nested front-to-back scans find exactly what the reference reading
      describes. */
  lemma {:induction false} SomeStepIff(steps: seq<Step>, p: Prerequisite)
    ensures SomeStep(steps, p) <==> Recorded(steps, p)
  {
    if |steps| > 0 {
      SomeStepIff(steps[1..], p);
      SomeCallIff(CallsOf(steps[0]), p);
      if Recorded(steps, p) {
        var i, j :| 0 <= i < |steps| && 0 <= j < |CallsOf(steps[i])| && Satisfies(CallsOf(steps[i])[j], p);
        if i > 0 {
          assert steps[1..][i - 1] == steps[i];
        }
      }
      if Recorded(steps[1..], p) {
        var i, j :| 0 <= i < |steps[1..]| && 0 <= j < |CallsOf(steps[1..][i])| && Satisfies(CallsOf(steps[1..][i])[j], p);
        assert steps[i + 1] == steps[1..][i];
      }
    }
  }

  /** `hasDesignSystemGuidelinesCall(steps)`. */
  predicate HasDesignSystemGuidelinesCall(steps: seq<Step>): (r: bool)
    ensures r <==> Recorded(steps, DesignSystemGuidelines)
  {
    SomeStepIff(steps, DesignSystemGuidelines);
    SomeStep(steps, DesignSystemGuidelines)
  }

  /** The guidelines check holds exactly when some call of some step names
      `get_guidelines` and carries topic `"design-system"`, read from `args`
      when `args` is present and from `input` otherwise. */
  lemma HasDesignSystemGuidelinesCallIff(steps: seq<Step>)
    ensures HasDesignSystemGuidelinesCall(steps) <==>
      exists i, j :: 0 <= i < |steps| && 0 <= j < |CallsOf(steps[i])| &&
        var call := CallsOf(steps[i])[j];
        && call.toolName == Some("get_guidelines")
        && if !IsNullish(call.args) then PropertyIsString(call.args.value, "topic", "design-system")
           else !IsNullish(call.input) && PropertyIsString(call.input.value, "topic", "design-system")
  {
    SomeStepIff(steps, DesignSystemGuidelines);
  }

  /** The gate's unlock condition, on the reference reading of the history:
      in both modes a design-system guidelines call; in fast mode also a
      `get_variables` call and a `find_empty_space_on_canvas` call. */
  ghost predicate Unlocked(mode: AgentMode, steps: seq<Step>) {
    && Recorded(steps, DesignSystemGuidelines)
    && (mode == Fast ==>
          Recorded(steps, CalledTool("get_variables")) && Recorded(steps, CalledTool("find_empty_space_on_canvas")))
  }

  /** `allToolNames.filter((toolName) => toolName !== x)`. */
  function Without(names: seq<string>, x: string): (r: seq<string>)
    ensures forall y :: y in r <==> y in names && y != x
    ensures multiset(r) == multiset(names)[x := 0]
    ensures |r| <= |names|
  {
    if |names| == 0 then []
    else
      assert names == [names[0]] + names[1..];
      (if names[0] == x then [] else [names[0]]) + Without(names[1..], x)
  }

  /** Removing a name that occurs once keeps every other name in its place. */
  lemma {:induction false} WithoutSingleOccurrence(names: seq<string>, x: string, i: nat)
    requires i < |names| && names[i] == x
    requires forall k :: 0 <= k < |names| && names[k] == x ==> k == i
    ensures Without(names, x) == names[..i] + names[i + 1..]
  {
    if i == 0 {
      WithoutAbsent(names[1..], x);
    } else {
      WithoutSingleOccurrence(names[1..], x, i - 1);
      assert names[1..][..i - 1] + names[1..][i..] == names[1..i] + names[i + 1..];
      assert [names[0]] + names[1..i] == names[..i];
    }
  }

  /** Filtering distributes over concatenation, so order is kept. */
  lemma {:induction false} WithoutAppend(a: seq<string>, b: seq<string>, x: string)
    ensures Without(a + b, x) == Without(a, x) + Without(b, x)
  {
    if |a| == 0 {
      assert a + b == b;
    } else {
      var t := a[1..];
      var head := if a[0] == x then [] else [a[0]];
      assert (a + b)[0] == a[0] && (a + b)[1..] == t + b;
      var wt, wb := Without(t, x), Without(b, x);
      assert Without(t + b, x) == wt + wb by {
        WithoutAppend(t, b, x);
      }
      assert head + (wt + wb) == (head + wt) + wb;
    }
  }

  lemma {:induction false} WithoutAbsent(names: seq<string>, x: string)
    requires x !in names
    ensures Without(names, x) == names
  {
    if |names| > 0 {
      WithoutAbsent(names[1..], x);
    }
  }

  /** `toolsWithoutBatchDesign` for the registry: its names in registry order
      with exactly `batch_design` taken out. */
  lemma ToolsWithoutBatchDesign()
    ensures Without(PenTools.AllToolNames(), "batch_design")
         == PenTools.AllToolNames()[..5] + PenTools.AllToolNames()[6..]
    ensures |Without(PenTools.AllToolNames(), "batch_design")| == 12
  {
    PenTools.RegistryNamesDistinct();
    PenTools.RegistryMembers();
    WithoutSingleOccurrence(PenTools.AllToolNames(), "batch_design", 5);
  }

  const EditsRule: string :=
    "MANDATORY TOOL RULE: You must call get_guidelines with topic=\"design-system\" " +
    "before your first batch_design call. Until then, batch_design is unavailable."

  const FastRules: string :=
    "MANDATORY FAST TOOL RULES:\n" +
    "1) You must call get_guidelines with topic=\"design-system\".\n" +
    "2) You must call get_variables.\n" +
    "3) You must call find_empty_space_on_canvas with the intended embed width/height.\n" +
    "Only after all three are completed, batch_design becomes available."

  /** `mandatoryEditsInstruction` / `mandatoryFastInstruction`: the base prompt,
      a blank line, then the mode's rule text. */
  function MandatoryInstruction(mode: AgentMode, system: string): (r: string)
    ensures |r| > |system| + 2 && r[..|system| + 2] == system + "\n\n"
    ensures r[|system| + 2..] == if mode == Fast then FastRules else EditsRule
  {
    var r := system + "\n\n" + (if mode == Fast then FastRules else EditsRule);
    assert r[..|system| + 2] == system + "\n\n";
    assert r[|system| + 2..] == if mode == Fast then FastRules else EditsRule;
    r
  }

  /** The two modes' override texts differ for every base prompt: the rule
      texts differ in length. */
  lemma MandatoryInstructionsDiffer(system: string)
    ensures MandatoryInstruction(Edits, system) != MandatoryInstruction(Fast, system)
  {
    assert |EditsRule| != |FastRules|;
  }

  /** What `prepareStep` returns: the tools the model may call in the next
      step, and the system text that replaces the base prompt, if any. */
  datatype StepSettings = StepSettings(activeTools: seq<string>, system: Option<string>)

  /** The checks `prepareStep` makes hold exactly when the gate is unlocked
      on the reference reading of the history. */
  lemma {:induction false} UnlockCheckIff(mode: AgentMode, steps: seq<Step>)
    ensures Unlocked(mode, steps) <==>
      && HasDesignSystemGuidelinesCall(steps)
      && (mode == Fast ==>
            SomeStep(steps, CalledTool("get_variables")) && SomeStep(steps, CalledTool("find_empty_space_on_canvas")))
  {
    SomeStepIff(steps, DesignSystemGuidelines);
    SomeStepIff(steps, CalledTool("get_variables"));
    SomeStepIff(steps, CalledTool("find_empty_space_on_canvas"));
  }

  /** The `prepareStep` callback, consulted before every model step with the
      steps finished so far. The route builds it around the request's mode, the
      base system prompt and the registry's names. */
  function PrepareStep(mode: AgentMode, system: string, allToolNames: seq<string>, steps: seq<Step>): (r: StepSettings)
    ensures "batch_design" in r.activeTools <==> Unlocked(mode, steps) && "batch_design" in allToolNames
    ensures Unlocked(mode, steps) ==> r == StepSettings(allToolNames, None)
    ensures !Unlocked(mode, steps) ==>
      r == StepSettings(Without(allToolNames, "batch_design"), Some(MandatoryInstruction(mode, system)))
  {
    UnlockCheckIff(mode, steps);
    var toolsWithoutBatchDesign := Without(allToolNames, "batch_design");
    var guidelinesLoaded := HasDesignSystemGuidelinesCall(steps);
    if mode == Fast then
      var hasVariablesCall := SomeStep(steps, CalledTool("get_variables"));
      var hasFindEmptySpaceCall := SomeStep(steps, CalledTool("find_empty_space_on_canvas"));
      if !guidelinesLoaded || !hasVariablesCall || !hasFindEmptySpaceCall then
        StepSettings(toolsWithoutBatchDesign, Some(MandatoryInstruction(Fast, system)))
      else
        StepSettings(allToolNames, None)
    else if !guidelinesLoaded then
      StepSettings(toolsWithoutBatchDesign, Some(MandatoryInstruction(Edits, system)))
    else
      StepSettings(allToolNames, None)
  }

  /** With the real registry: `batch_design` is offered exactly when the gate
      is unlocked; while locked, the other twelve tools are offered in
      registry order together with the mode's mandatory instruction. */
  lemma PenToolsGate(mode: AgentMode, system: string, steps: seq<Step>)
    ensures "batch_design" in PrepareStep(mode, system, PenTools.AllToolNames(), steps).activeTools <==> Unlocked(mode, steps)
    ensures !Unlocked(mode, steps) ==>
      PrepareStep(mode, system, PenTools.AllToolNames(), steps) ==
      StepSettings(PenTools.AllToolNames()[..5] + PenTools.AllToolNames()[6..], Some(MandatoryInstruction(mode, system)))
  {
    PenTools.RegistryMembers();
    ToolsWithoutBatchDesign();
  }

  // ── Properties of the gate ────────────────────────────────────────

  /** A prerequisite recorded in one history is recorded in any history that
      holds all of its steps. */
  lemma {:induction false} RecordedInLargerHistory(h1: seq<Step>, h2: seq<Step>, p: Prerequisite)
    requires forall s :: s in h1 ==> s in h2
    requires Recorded(h1, p)
    ensures Recorded(h2, p)
  {
    var i, j :| 0 <= i < |h1| && 0 <= j < |CallsOf(h1[i])| && Satisfies(CallsOf(h1[i])[j], p);
    assert h1[i] in h2;
    var i' :| 0 <= i' < |h2| && h2[i'] == h1[i];
    assert Satisfies(CallsOf(h2[i'])[j], p);
  }

  /** Unlocking depends only on which steps the history holds. */
  lemma {:induction false} UnlockedInLargerHistory(mode: AgentMode, h1: seq<Step>, h2: seq<Step>)
    requires forall s :: s in h1 ==> s in h2
    requires Unlocked(mode, h1)
    ensures Unlocked(mode, h2)
  {
    RecordedInLargerHistory(h1, h2, DesignSystemGuidelines);
    if mode == Fast {
      RecordedInLargerHistory(h1, h2, CalledTool("get_variables"));
      RecordedInLargerHistory(h1, h2, CalledTool("find_empty_space_on_canvas"));
    }
  }

  /** Monotonicity: once `batch_design` is offered, it stays offered for every
      longer history of the same request, and no override text returns. */
  lemma GateNeverRelocks(mode: AgentMode, system: string, names: seq<string>, h: seq<Step>, e: seq<Step>)
    requires "batch_design" in PrepareStep(mode, system, names, h).activeTools
    ensures PrepareStep(mode, system, names, h + e) == StepSettings(names, None)
  {
    UnlockedInLargerHistory(mode, h, h + e);
  }

  /** Order independence: histories holding the same steps, in whatever order,
      get the same settings. */
  lemma GateIgnoresStepOrder(mode: AgentMode, system: string, names: seq<string>, h1: seq<Step>, h2: seq<Step>)
    requires multiset(h1) == multiset(h2)
    ensures PrepareStep(mode, system, names, h1) == PrepareStep(mode, system, names, h2)
  {
    forall s | s in h1 ensures s in h2 {
      assert s in multiset(h1);
    }
    forall s | s in h2 ensures s in h1 {
      assert s in multiset(h2);
    }
    if Unlocked(mode, h1) {
      UnlockedInLargerHistory(mode, h1, h2);
    }
    if Unlocked(mode, h2) {
      UnlockedInLargerHistory(mode, h2, h1);
    }
  }

  /** Safety: in either mode `batch_design` is offered only after a
      design-system guidelines call; and a history that unlocks fast mode
      unlocks edits mode too. */
  lemma GateNeverUnlocksEarly(system: string, names: seq<string>, steps: seq<Step>)
    requires "batch_design" in names
    ensures "batch_design" in PrepareStep(Edits, system, names, steps).activeTools <==> HasDesignSystemGuidelinesCall(steps)
    ensures "batch_design" in PrepareStep(Fast, system, names, steps).activeTools ==>
      && HasDesignSystemGuidelinesCall(steps)
      && SomeStep(steps, CalledTool("get_variables"))
      && SomeStep(steps, CalledTool("find_empty_space_on_canvas"))
      && "batch_design" in PrepareStep(Edits, system, names, steps).activeTools
  {
    UnlockCheckIff(Fast, steps);
    UnlockCheckIff(Edits, steps);
  }

  /** A single design-system guidelines call. */
  function DesignSystemLookup(): ToolCall {
    ToolCall(Some("get_guidelines"), Some(JObj(map["topic" := JStr("design-system")])), None)
  }

  /** The converse of fast-implies-edits fails: one guidelines call unlocks
      edits mode but not fast mode. */
  lemma EditsUnlockDoesNotImplyFast(system: string, names: seq<string>)
    requires "batch_design" in names
    ensures "batch_design" in PrepareStep(Edits, system, names, [Step(Some([DesignSystemLookup()]))]).activeTools
    ensures "batch_design" !in PrepareStep(Fast, system, names, [Step(Some([DesignSystemLookup()]))]).activeTools
  {
    var h := [Step(Some([DesignSystemLookup()]))];
    assert Satisfies(CallsOf(h[0])[0], DesignSystemGuidelines);
    assert !Recorded(h, CalledTool("get_variables")) by {
      assert |"get_guidelines"| != |"get_variables"|;
    }
  }

  /** A fast-mode request whose first step called the guidelines lookup and
      `get_variables`, but not `find_empty_space_on_canvas`, still has
      `batch_design` withheld, with the fast rules as system text. */
  lemma FastStillLockedWithoutEmptySpaceLookup(system: string, names: seq<string>)
    ensures
      var h := [Step(Some([DesignSystemLookup(), ToolCall(Some("get_variables"), None, None)]))];
      PrepareStep(Fast, system, names, h) ==
        StepSettings(Without(names, "batch_design"), Some(MandatoryInstruction(Fast, system)))
  {
    var calls := [DesignSystemLookup(), ToolCall(Some("get_variables"), None, None)];
    var h := [Step(Some(calls))];
    assert !Recorded(h, CalledTool("find_empty_space_on_canvas")) by {
      assert |"get_guidelines"| != |"find_empty_space_on_canvas"|;
      assert |"get_variables"| != |"find_empty_space_on_canvas"|;
      forall j | 0 <= j < |CallsOf(h[0])| ensures !Satisfies(CallsOf(h[0])[j], CalledTool("find_empty_space_on_canvas")) {
      }
    }
  }

  // ── One request's run ─────────────────────────────────────────────

  /** The settings `prepareStep` hands out over one run, given the steps the
      model produces: step `k` is prepared from the `k` steps before it, and
      the run stops after the mode's step cap. */
  function GateTrace(mode: AgentMode, system: string, names: seq<string>, steps: seq<Step>): (r: seq<StepSettings>)
    ensures |r| <= StepCap(mode) && |r| <= |steps|
    ensures |r| == if |steps| < StepCap(mode) then |steps| else StepCap(mode)
  {
    var n := if |steps| < StepCap(mode) then |steps| else StepCap(mode);
    seq(n, k requires 0 <= k < n => SettingsBefore(mode, system, names, steps, k))
  }

  /** The settings prepared for step `k` of a run. */
  function SettingsBefore(mode: AgentMode, system: string, names: seq<string>, steps: seq<Step>, k: nat): StepSettings
    requires k <= |steps|
  {
    PrepareStep(mode, system, names, steps[..k])
  }

  lemma GateTraceEntry(mode: AgentMode, system: string, names: seq<string>, steps: seq<Step>, k: nat)
    requires k < |GateTrace(mode, system, names, steps)|
    ensures k <= |steps| && GateTrace(mode, system, names, steps)[k] == PrepareStep(mode, system, names, steps[..k])
  {
  }

  /** Unlocking for a prefix of the run carries over to every longer prefix. */
  lemma UnlockedOnLongerPrefix(mode: AgentMode, steps: seq<Step>, i: nat, j: nat)
    requires i <= j <= |steps|
    requires Unlocked(mode, steps[..i])
    ensures Unlocked(mode, steps[..j])
  {
    forall s | s in steps[..i] ensures s in steps[..j] {
      var k :| 0 <= k < i && steps[..i][k] == s;
      assert steps[..j][k] == s;
    }
    UnlockedInLargerHistory(mode, steps[..i], steps[..j]);
  }

  /** Over a run: the first step never has `batch_design`; once a step has it,
      every later step has it too; there are at most 3 steps in edits mode and
      6 in fast mode. */
  lemma {:induction false} GateTraceProperties(mode: AgentMode, system: string, names: seq<string>, steps: seq<Step>)
    ensures |GateTrace(mode, system, names, steps)| <= (if mode == Fast then 6 else 3)
    ensures |GateTrace(mode, system, names, steps)| > 0 ==>
      GateTrace(mode, system, names, steps)[0] ==
        StepSettings(Without(names, "batch_design"), Some(MandatoryInstruction(mode, system)))
    ensures forall i, j ::
      0 <= i <= j < |GateTrace(mode, system, names, steps)| && "batch_design" in GateTrace(mode, system, names, steps)[i].activeTools
      ==> "batch_design" in GateTrace(mode, system, names, steps)[j].activeTools
  {
    var trace := GateTrace(mode, system, names, steps);
    if |trace| > 0 {
      GateTraceEntry(mode, system, names, steps, 0);
      assert !Recorded(steps[..0], DesignSystemGuidelines);
    }
    forall i, j | 0 <= i <= j < |trace| && "batch_design" in trace[i].activeTools
      ensures "batch_design" in trace[j].activeTools
    {
      GateTraceEntry(mode, system, names, steps, i);
      GateTraceEntry(mode, system, names, steps, j);
      UnlockedOnLongerPrefix(mode, steps, i, j);
    }
  }
}

/** The system prompt sent with every chat request: a fixed core text, followed,
    when the editor sent one, by a labelled section holding the canvas context. */
module SystemPrompt {
  import opened Js

  /** The core instructions (node types, the batch-edit mini-script, workflow,
      design principles). Only the opening sentence of the text is kept here:
      the prompt builder treats it as one opaque, non-empty string. */
  const CorePrompt: string := "You are an expert design agent for the Pencil editor. "

  /** The heading that introduces the canvas context. */
  const CanvasContextHeading: string := "\n## Current Canvas Context\n\n"

  /** JavaScript truthiness of an optional string: present and not empty. */
  predicate IsTruthy(s: Option<string>) {
    s.Some? && s.value != ""
  }

  /** The parts joined into the prompt: the core text, then the context
      section when the context is truthy. */
  function PromptParts(canvasContext: Option<string>): (r: seq<string>)
    ensures 1 <= |r| <= 2 && r[0] == CorePrompt
    ensures |r| == 2 <==> IsTruthy(canvasContext)
    ensures |r| == 2 ==> r[1] == CanvasContextHeading + canvasContext.value
  {
    [CorePrompt] + (if IsTruthy(canvasContext) then [CanvasContextHeading + canvasContext.value] else [])
  }

  /** `buildSystemPrompt(canvasContext)`: the parts joined with newlines. */
  function BuildSystemPrompt(canvasContext: Option<string>): (r: string)
    ensures !IsTruthy(canvasContext) ==> r == CorePrompt
    ensures IsTruthy(canvasContext) ==>
      r == CorePrompt + "\n" + "\n## Current Canvas Context\n\n" + canvasContext.value
  {
    Join(PromptParts(canvasContext), "\n")
  }

  /** The prompt always opens with the core text and, when a context was
      given, ends with that context verbatim. */
  lemma {:induction false} PromptFraming(canvasContext: Option<string>)
    ensures |CorePrompt| <= |BuildSystemPrompt(canvasContext)|
    ensures BuildSystemPrompt(canvasContext)[..|CorePrompt|] == CorePrompt
    ensures IsTruthy(canvasContext) ==>
      var r := BuildSystemPrompt(canvasContext);
      var c := canvasContext.value;
      |c| <= |r| && r[|r| - |c|..] == c
  {
    var r := BuildSystemPrompt(canvasContext);
    if IsTruthy(canvasContext) {
      var c := canvasContext.value;
      var front := CorePrompt + "\n" + CanvasContextHeading;
      assert r == front + c;
      assert r[..|CorePrompt|] == front[..|CorePrompt|];
    }
  }
}

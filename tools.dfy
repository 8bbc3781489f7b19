/** The tool registry offered to the design agent (`penTools`): thirteen tools
    in declaration order. Three of them run locally as pure lookups
    (`get_guidelines`, `get_style_guide_tags`, `get_style_guide`); every other
    tool is only declared here and is carried out by the editor client. */
module PenTools {
  import opened Js

  /** The tools of the registry, one constructor per entry. */
  datatype Tool =
    | GetEditorState
    | OpenDocument
    | BatchGet
    | SnapshotLayout
    | GetVariables
    | BatchDesign
    | SetVariables
    | ReplaceAllMatchingProperties
    | FindEmptySpaceOnCanvas
    | SearchAllUniqueProperties
    | GetGuidelines
    | GetStyleGuideTags
    | GetStyleGuide

  /** The tool's key in the registry object. */
  function Name(t: Tool): string {
    match t
    case GetEditorState => "get_editor_state"
    case OpenDocument => "open_document"
    case BatchGet => "batch_get"
    case SnapshotLayout => "snapshot_layout"
    case GetVariables => "get_variables"
    case BatchDesign => "batch_design"
    case SetVariables => "set_variables"
    case ReplaceAllMatchingProperties => "replace_all_matching_properties"
    case FindEmptySpaceOnCanvas => "find_empty_space_on_canvas"
    case SearchAllUniqueProperties => "search_all_unique_properties"
    case GetGuidelines => "get_guidelines"
    case GetStyleGuideTags => "get_style_guide_tags"
    case GetStyleGuide => "get_style_guide"
  }

  /** Whether a tool definition carries a local `execute` body, and which one. */
  datatype Execution =
    | Declarative
    | GuidelinesLookup
    | StyleGuideTagsLookup
    | StyleGuideLookup

  function ExecutionOf(t: Tool): Execution {
    match t
    case GetGuidelines => GuidelinesLookup
    case GetStyleGuideTags => StyleGuideTagsLookup
    case GetStyleGuide => StyleGuideLookup
    case _ => Declarative
  }

  /** The registry object's entries in declaration order. `get_screenshot` is
      commented out in the registry and so is not a tool. */
  const Registry: seq<Tool> := [
    GetEditorState, OpenDocument, BatchGet, SnapshotLayout, GetVariables, BatchDesign,
    SetVariables, ReplaceAllMatchingProperties, FindEmptySpaceOnCanvas, SearchAllUniqueProperties,
    GetGuidelines, GetStyleGuideTags, GetStyleGuide
  ]

  /** `Object.keys(...)` of a registry: its names, in order. */
  function Names(tools: seq<Tool>): (r: seq<string>)
    ensures |r| == |tools|
    ensures forall i :: 0 <= i < |tools| ==> r[i] == Name(tools[i])
  {
    if |tools| == 0 then [] else [Name(tools[0])] + Names(tools[1..])
  }

  /** The name list the step gate filters. */
  function AllToolNames(): (r: seq<string>)
    ensures |r| == 13
  {
    Names(Registry)
  }

  /** The tool a call names: the first registry entry with that key. */
  function ToolNamed(tools: seq<Tool>, name: string): (r: Option<Tool>)
    ensures r.Some? ==> r.value in tools && Name(r.value) == name
    ensures r.None? ==> forall t :: t in tools ==> Name(t) != name
  {
    if |tools| == 0 then None
    else if Name(tools[0]) == name then Some(tools[0])
    else ToolNamed(tools[1..], name)
  }

  /** A call to `name` is answered by a local `execute` in the gateway: the
      registry has a tool under that key, and that tool has an `execute`. */
  predicate RunsLocally(name: string): (r: bool)
    ensures r <==> exists t :: t in Registry && Name(t) == name && ExecutionOf(t) != Declarative
  {
    ToolNamedUnique(Registry, name);
    var t := ToolNamed(Registry, name);
    t.Some? && ExecutionOf(t.value) != Declarative
  }

  /** Keys are unique, so the lookup finds the only tool with the name. */
  lemma ToolNamedUnique(tools: seq<Tool>, name: string)
    ensures forall t :: t in tools && Name(t) == name ==> ToolNamed(tools, name) == Some(t)
  {
    forall t | t in tools && Name(t) == name
      ensures ToolNamed(tools, name) == Some(t)
    {
      var u := ToolNamed(tools, name).value;
      if u != t {
        NamesDistinct(u, t);
      }
    }
  }

  /** The lookup finds the entry at `i` when no earlier entry has its name. */
  lemma {:induction false} ToolNamedFirstMatch(tools: seq<Tool>, i: nat)
    requires i < |tools|
    requires forall k :: 0 <= k < i ==> Name(tools[k]) != Name(tools[i])
    ensures ToolNamed(tools, Name(tools[i])) == Some(tools[i])
  {
    if i > 0 {
      ToolNamedFirstMatch(tools[1..], i - 1);
    }
  }

  /** No two tools share a registry key. */
  lemma NamesDistinct(a: Tool, b: Tool)
    requires a != b
    ensures Name(a) != Name(b)
  {
    ghost var sa, sb := Signature(a), Signature(b);
  }

  /** Length and first letter of a tool's name, which already tell the tools
      apart. */
  ghost function Signature(t: Tool): (r: (nat, char))
    ensures r == (|Name(t)|, Name(t)[0])
  {
    match t
    case GetEditorState => (16, 'g')
    case OpenDocument => (13, 'o')
    case BatchGet => (9, 'b')
    case SnapshotLayout => (15, 's')
    case GetVariables => (13, 'g')
    case BatchDesign => (12, 'b')
    case SetVariables => (13, 's')
    case ReplaceAllMatchingProperties => (31, 'r')
    case FindEmptySpaceOnCanvas => (26, 'f')
    case SearchAllUniqueProperties => (28, 's')
    case GetGuidelines => (14, 'g')
    case GetStyleGuideTags => (20, 'g')
    case GetStyleGuide => (15, 'g')
  }

  /** The registry holds thirteen tools under distinct names. */
  lemma RegistryNamesDistinct()
    ensures |AllToolNames()| == 13
    ensures forall i, j :: 0 <= i < j < 13 ==> AllToolNames()[i] != AllToolNames()[j]
  {
    forall i, j | 0 <= i < j < 13 ensures AllToolNames()[i] != AllToolNames()[j] {
      NamesDistinct(Registry[i], Registry[j]);
    }
  }

  /** The gated `batch_design` sits at position 5 and `get_guidelines` at 10. */
  lemma RegistryMembers()
    ensures AllToolNames()[5] == "batch_design"
    ensures AllToolNames()[10] == "get_guidelines"
  {
    var names := Names(Registry);
    assert names[5] == Name(Registry[5]);
    assert names[10] == Name(Registry[10]);
  }

  /** The commented-out `get_screenshot` is not a tool of the registry. */
  lemma ScreenshotNotRegistered()
    ensures "get_screenshot" !in AllToolNames()
  {
    NoScreenshotAmong(Registry);
  }

  /** No list of tools has an entry named `get_screenshot`. */
  lemma {:induction false} NoScreenshotAmong(tools: seq<Tool>)
    ensures "get_screenshot" !in Names(tools)
  {
    if |tools| > 0 {
      NoToolIsScreenshot(tools[0]);
      NoScreenshotAmong(tools[1..]);
      assert Names(tools) == [Name(tools[0])] + Names(tools[1..]);
    }
  }

  lemma NoToolIsScreenshot(t: Tool)
    ensures Name(t) != "get_screenshot"
  {
    if t == GetGuidelines {
      assert Name(t)[4] == 'g';
    } else {
      assert |Name(t)| != 14;
    }
  }

  /** Looking up the name of a registry entry finds that entry. */
  lemma RegistryLookup(i: nat)
    requires i < |Registry|
    ensures ToolNamed(Registry, Name(Registry[i])) == Some(Registry[i])
  {
    RegistryNamesDistinct();
    var names := Names(Registry);
    forall k | 0 <= k < i ensures Name(Registry[k]) != Name(Registry[i]) {
      assert names[k] != names[i];
    }
    ToolNamedFirstMatch(Registry, i);
  }

  /** Exactly three tools run locally. */
  lemma LocalToolsAreExactlyThree(name: string)
    ensures RunsLocally(name) <==>
      name == "get_guidelines" || name == "get_style_guide_tags" || name == "get_style_guide"
  {
    if name == Name(GetGuidelines) {
      RegistryLookup(10);
    } else if name == Name(GetStyleGuideTags) {
      RegistryLookup(11);
    } else if name == Name(GetStyleGuide) {
      RegistryLookup(12);
    }
  }

  /** `batch_design` is declared only, so its mini-script is never interpreted
      by the gateway. */
  lemma BatchDesignIsDeclarative()
    ensures !RunsLocally("batch_design")
  {
    LocalToolsAreExactlyThree("batch_design");
    var n := "batch_design";
    assert |n| == 12;
    assert n != "get_guidelines" && n != "get_style_guide_tags" && n != "get_style_guide";
  }

  // ── get_guidelines ────────────────────────────────────────────────

  /** The keys of the guideline table. */
  datatype Topic = DesignSystem | Code | Table | Tailwind | LandingPage

  function TopicKey(t: Topic): string {
    match t
    case DesignSystem => "design-system"
    case Code => "code"
    case Table => "table"
    case Tailwind => "tailwind"
    case LandingPage => "landing-page"
  }

  /** The guideline texts are static instructional prose; only their opening
      words are kept here. What matters to the lookup is that none is empty. */
  function GuidelineText(t: Topic): (r: string)
    ensures r != ""
  {
    match t
    case DesignSystem => "## Sizing & Auto-Layout Rules\n"
    case Code => "When generating code from designs, "
    case Table => "Build tables using nested frames "
    case Tailwind => "Map design tokens to Tailwind "
    case LandingPage => "Structure landing pages with a hero "
  }

  /** The table object's keys in insertion order. */
  const GuidelineTable: seq<Topic> := [DesignSystem, Code, Table, Tailwind, LandingPage]

  /** The topics the input schema's enum admits, in the enum's order. */
  const TopicEnum: seq<string> := ["code", "table", "tailwind", "landing-page", "design-system"]

  /** The tool's input schema accepts the topic. */
  predicate TopicSchemaAccepts(topic: string) {
    topic in TopicEnum
  }

  function Keys(table: seq<Topic>): (r: seq<string>)
    ensures |r| == |table|
    ensures forall i :: 0 <= i < |table| ==> r[i] == TopicKey(table[i])
  {
    if |table| == 0 then [] else [TopicKey(table[0])] + Keys(table[1..])
  }

  /** `guidelines[key]` on the table object; `None` for `undefined`. */
  function Lookup(table: seq<Topic>, key: string): (r: Option<string>)
    ensures r.None? <==> key !in Keys(table)
    ensures r.Some? ==> exists t :: t in table && TopicKey(t) == key && GuidelineText(t) == r.value
  {
    if |table| == 0 then None
    else if TopicKey(table[0]) == key then Some(GuidelineText(table[0]))
    else Lookup(table[1..], key)
  }

  datatype GuidelinesResult =
    | Guidelines(topic: string, guidelines: string)
    | GuidelinesError(error: string)

  /** The local `execute` of `get_guidelines`. A missing or empty (falsy) entry
      yields an error listing the table's keys. */
  function GuidelinesFor(topic: string): (r: GuidelinesResult)
    ensures r.Guidelines? ==> r.topic == topic && r.guidelines != ""
    ensures r.Guidelines? ==> exists t :: TopicKey(t) == topic && r.guidelines == GuidelineText(t)
    ensures r.GuidelinesError? <==> topic !in Keys(GuidelineTable)
    ensures r.GuidelinesError? ==> r.error == "Invalid topic. Available topics: " + Join(Keys(GuidelineTable), ", ")
  {
    var entry := Lookup(GuidelineTable, topic);
    if entry.None? || entry.value == "" then
      GuidelinesError("Invalid topic. Available topics: " + Join(Keys(GuidelineTable), ", "))
    else
      Guidelines(topic, entry.value)
  }

  /** The table's keys, in insertion order: the order the error text lists them. */
  lemma GuidelineKeys()
    ensures Keys(GuidelineTable) == ["design-system", "code", "table", "tailwind", "landing-page"]
  {
  }

  /** Distinct topics have distinct keys. */
  lemma TopicKeyInjective(a: Topic, b: Topic)
    requires TopicKey(a) == TopicKey(b)
    ensures a == b
  {
    assert |TopicKey(a)| == |TopicKey(b)|;
  }

  /** Every topic of the table gets its own entry back. */
  lemma GuidelinesForEveryTopic(t: Topic)
    ensures GuidelinesFor(TopicKey(t)) == Guidelines(TopicKey(t), GuidelineText(t))
  {
    GuidelineKeys();
    assert TopicKey(t) in Keys(GuidelineTable);
    var r := GuidelinesFor(TopicKey(t));
    var u :| TopicKey(u) == TopicKey(t) && r.guidelines == GuidelineText(u);
    TopicKeyInjective(u, t);
  }

  /** The input schema's enum admits exactly the table's keys. */
  lemma SchemaAdmitsExactlyTableKeys(topic: string)
    ensures TopicSchemaAccepts(topic) <==> topic in Keys(GuidelineTable)
  {
    GuidelineKeys();
  }

  /** A topic gets guidelines exactly when the schema admits it, so once the
      schema has validated the input the error branch cannot be reached; any
      other topic gets the error, which lists the five keys in table order. */
  lemma GuidelinesErrorOnlyOutsideSchema(topic: string)
    ensures TopicSchemaAccepts(topic) <==> GuidelinesFor(topic).Guidelines?
    ensures !TopicSchemaAccepts(topic) ==>
      GuidelinesFor(topic) == GuidelinesError("Invalid topic. Available topics: " +
        Join(["design-system", "code", "table", "tailwind", "landing-page"], ", "))
  {
    SchemaAdmitsExactlyTableKeys(topic);
    GuidelineKeys();
  }

  // ── get_style_guide_tags ──────────────────────────────────────────

  datatype TagCategory = TagCategory(category: string, tags: seq<string>)

  /** The local `execute` of `get_style_guide_tags`: a constant catalogue. */
  function StyleGuideTags(): (r: seq<TagCategory>)
    ensures |r| == 5
  {
    [
      TagCategory("style", ["minimal", "bold", "elegant", "playful", "corporate", "modern", "retro", "brutalist"]),
      TagCategory("color", ["monochrome", "vibrant", "pastel", "dark", "light", "warm", "cool", "earth-tones"]),
      TagCategory("industry", ["saas", "ecommerce", "finance", "healthcare", "education", "creative", "technology"]),
      TagCategory("platform", ["mobile", "website", "webapp", "dashboard"]),
      TagCategory("layout", ["grid", "asymmetric", "centered", "full-width", "card-based", "sidebar"])
    ]
  }

  function Categories(cats: seq<TagCategory>): (r: seq<string>)
    ensures |r| == |cats|
    ensures forall i :: 0 <= i < |cats| ==> r[i] == cats[i].category
  {
    if |cats| == 0 then [] else [cats[0].category] + Categories(cats[1..])
  }

  /** The catalogue always offers the same five categories, each non-empty. */
  lemma StyleGuideTagCategories()
    ensures Categories(StyleGuideTags()) == ["style", "color", "industry", "platform", "layout"]
    ensures forall c :: c in StyleGuideTags() ==> |c.tags| > 0
  {
  }

  // ── get_style_guide ───────────────────────────────────────────────

  datatype Typography = Typography(
    headingFont: string,
    bodyFont: string,
    sizes: seq<(string, int)>,
    weights: seq<(string, string)>)

  datatype StyleGuide = StyleGuide(
    name: string,
    basedOn: seq<string>,
    typography: Typography,
    colors: seq<(string, string)>,
    spacing: seq<(string, int)>,
    borderRadius: seq<(string, int)>)

  const DefaultStyleGuideName: string := "Generated Style Guide"

  function DefaultTypography(): Typography {
    Typography(
      "Inter", "Inter",
      [("h1", 48), ("h2", 36), ("h3", 24), ("h4", 18), ("body", 16), ("small", 14), ("caption", 12)],
      [("heading", "700"), ("body", "400"), ("emphasis", "600")])
  }

  function DefaultColors(): seq<(string, string)> {
    [("primary", "#3B82F6"), ("secondary", "#8B5CF6"), ("accent", "#F59E0B"),
     ("background", "#FFFFFF"), ("surface", "#F8FAFC"), ("text", "#0F172A"),
     ("textMuted", "#64748B"), ("border", "#E2E8F0"), ("success", "#22C55E"),
     ("error", "#EF4444"), ("warning", "#F59E0B")]
  }

  function DefaultSpacing(): seq<(string, int)> {
    [("xs", 4), ("sm", 8), ("md", 16), ("lg", 24), ("xl", 32), ("xxl", 48), ("section", 64)]
  }

  function DefaultBorderRadius(): seq<(string, int)> {
    [("sm", 4), ("md", 8), ("lg", 12), ("xl", 16), ("full", 9999)]
  }

  /** The local `execute` of `get_style_guide`. After schema validation `tags`
      and `name` are either absent or of the declared type (`null` is refused). */
  function StyleGuideFor(tags: Option<seq<string>>, name: Option<string>): (r: StyleGuide)
    ensures r.name == (if name.Some? then name.value else DefaultStyleGuideName)
    ensures r.basedOn == (if tags.Some? then tags.value else [])
  {
    StyleGuide(name.GetOr(DefaultStyleGuideName), tags.GetOr([]),
      DefaultTypography(), DefaultColors(), DefaultSpacing(), DefaultBorderRadius())
  }

  /** Only `name` and `basedOn` depend on the input: two calls differ in
      nothing else. */
  lemma StyleGuideOnlyEchoesInput(t1: Option<seq<string>>, n1: Option<string>, t2: Option<seq<string>>, n2: Option<string>)
    ensures StyleGuideFor(t1, n1).(name := "", basedOn := []) == StyleGuideFor(t2, n2).(name := "", basedOn := [])
    ensures n1 == n2 ==> StyleGuideFor(t1, n1).name == StyleGuideFor(t2, n2).name
  {
  }
}

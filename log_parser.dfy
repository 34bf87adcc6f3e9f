/** The classification and formatting half of the log parser: the request-body
    filter, the system-prompt classifier, the message-block classifier and the
    scan for the `Skill` tool. Values arrive already decoded (see module Json). */
module LogParser {
  import opened Optional
  import opened Json
  import opened Text

  // ---------------------------------------------------------------------------
  // Entry filter

  /** `extract_request_body`: the entry's `data` (an empty object when absent)
      exactly when its `type` is the string "request body". */
  function ExtractRequestBody(entry: Value): (r: Option<Value>)
    requires entry.JObj?
    ensures r.Some? <==> "type" in entry.fields && entry.fields["type"] == JStr("request body")
    ensures r.Some? && "data" in entry.fields ==> r.value == entry.fields["data"]
    ensures r.Some? && "data" !in entry.fields ==> r.value == EmptyObj
  {
    if Get(entry, "type", JNull) == JStr("request body") then Some(Get(entry, "data", EmptyObj)) else None
  }

  // ---------------------------------------------------------------------------
  // System prompts

  const SystemPreviewLength: nat := 200

  datatype PromptKind = Billing | Identity | Instructions | SkillRelated | Unknown

  /** One rule of a priority chain: a marker, whether it is looked for in the
      lowercased text, and the kind it assigns. */
  datatype Rule = Rule(marker: string, lowercased: bool, kind: PromptKind)

  /** The classifier's rules, highest priority first. */
  const PromptRules: seq<Rule> := [
    Rule("billing-header", false, Billing),
    Rule("You are Claude Code", false, Identity),
    Rule("You are an interactive CLI", false, Instructions),
    Rule("skill", true, SkillRelated)
  ]

  predicate RuleMatches(rule: Rule, text: string)
  {
    if rule.lowercased then ContainsIgnoreCase(text, rule.marker) else Contains(text, rule.marker)
  }

  /** Reference reading of a priority chain: the kind of the first rule that
      matches, `Unknown` when none does. */
  function FirstMatch(rules: seq<Rule>, text: string): (r: PromptKind)
    requires forall k :: 0 <= k < |rules| ==> rules[k].kind != Unknown
    ensures r == Unknown <==> forall k :: 0 <= k < |rules| ==> !RuleMatches(rules[k], text)
    ensures r != Unknown ==>
      exists k :: 0 <= k < |rules| && RuleMatches(rules[k], text) && rules[k].kind == r &&
        forall j :: 0 <= j < k ==> !RuleMatches(rules[j], text)
  {
    if rules == [] then Unknown
    else if RuleMatches(rules[0], text) then rules[0].kind
    else
      var r := FirstMatch(rules[1..], text);
      assert forall k :: 1 <= k < |rules| ==> rules[k] == rules[1..][k - 1];
      r
  }

  /** The `content_type` chain of `format_system_prompts`: "billing" whenever the
      billing header occurs, whatever else the text says, and "unknown" exactly when
      none of the four markers occurs. */
  function ClassifySystemText(text: string): (r: PromptKind)
    ensures r == Billing <==> Contains(text, "billing-header")
    ensures r == Unknown <==>
      && !Contains(text, "billing-header")
      && !Contains(text, "You are Claude Code")
      && !Contains(text, "You are an interactive CLI")
      && !ContainsIgnoreCase(text, "skill")
  {
    if Contains(text, "billing-header") then Billing
    else if Contains(text, "You are Claude Code") then Identity
    else if Contains(text, "You are an interactive CLI") then Instructions
    else if ContainsIgnoreCase(text, "skill") then SkillRelated
    else Unknown
  }

  /** The if-chain is the first-match reading of `PromptRules`: an earlier marker
      shadows every later one, and `Unknown` means that no marker matched. */
  lemma {:induction false} ClassifyIsFirstMatch(text: string)
    ensures ClassifySystemText(text) == FirstMatch(PromptRules, text)
  {
    var rs := PromptRules;
    assert rs[1..][1..][1..][1..] == [];
    assert FirstMatch(rs[1..][1..][1..], text) ==
      if ContainsIgnoreCase(text, "skill") then SkillRelated else Unknown;
    assert FirstMatch(rs[1..][1..], text) ==
      if Contains(text, "You are an interactive CLI") then Instructions else FirstMatch(rs[1..][1..][1..], text);
    assert FirstMatch(rs[1..], text) ==
      if Contains(text, "You are Claude Code") then Identity else FirstMatch(rs[1..][1..], text);
  }

  /** A system block the source can format: an object whose `text`, if present, is a string. */
  predicate SystemBlockShape(block: Value)
  {
    block.JObj? && Get(block, "text", JStr("")).JStr?
  }

  function TextOf(block: Value): string
    requires SystemBlockShape(block)
  {
    Get(block, "text", JStr("")).s
  }

  datatype SystemBlock = SystemBlock(
    index: nat,
    kind: PromptKind,
    length: nat,
    cacheControl: Value,
    content: string,
    preview: string)

  /** The record `format_system_prompts` appends for block `i`. */
  function FormatSystemBlock(i: nat, block: Value): SystemBlock
    requires SystemBlockShape(block)
  {
    var text := TextOf(block);
    SystemBlock(i, ClassifySystemText(text), |text|, Get(block, "cache_control", EmptyObj),
                text, Preview(text, SystemPreviewLength))
  }

  /** What `format_system_prompts` returns: one record per block, in order, each
      carrying its position, its full text and that text's length, its
      `cache_control`, and a preview of at most 200 characters without newlines.
      The kind each record carries is the subject of `SystemPromptKinds`. */
  function SystemPromptsOf(system: seq<Value>): (r: seq<SystemBlock>)
    requires forall k :: 0 <= k < |system| ==> SystemBlockShape(system[k])
    ensures |r| == |system|
    ensures forall i :: 0 <= i < |r| ==>
      && r[i].index == i
      && r[i].content == TextOf(system[i])
      && r[i].length == |TextOf(system[i])|
      && r[i].cacheControl == Get(system[i], "cache_control", EmptyObj)
      && r[i].preview == Preview(r[i].content, SystemPreviewLength)
      && |r[i].preview| == (if |r[i].content| < SystemPreviewLength then |r[i].content| else SystemPreviewLength)
      && '\n' !in r[i].preview
  {
    seq(|system|, i requires 0 <= i < |system| => FormatSystemBlock(i, system[i]))
  }

  /** Each formatted block's kind is the first rule of the table its text matches. */
  lemma SystemPromptKinds(system: seq<Value>)
    requires forall k :: 0 <= k < |system| ==> SystemBlockShape(system[k])
    ensures forall i :: 0 <= i < |system| ==>
      SystemPromptsOf(system)[i].kind == FirstMatch(PromptRules, TextOf(system[i]))
  {
    forall i | 0 <= i < |system|
      ensures SystemPromptsOf(system)[i].kind == FirstMatch(PromptRules, TextOf(system[i]))
    {
      assert SystemPromptsOf(system)[i] == FormatSystemBlock(i, system[i]);
      ClassifyIsFirstMatch(TextOf(system[i]));
    }
  }

  /** `format_system_prompts`: the loop that appends one record per block. */
  method FormatSystemPrompts(system: seq<Value>) returns (formatted: seq<SystemBlock>)
    requires forall k :: 0 <= k < |system| ==> SystemBlockShape(system[k])
    ensures formatted == SystemPromptsOf(system)
  {
    formatted := [];
    var i := 0;
    while i < |system|
      invariant 0 <= i <= |system|
      invariant formatted == SystemPromptsOf(system)[..i]
    {
      var block := system[i];
      var text := Get(block, "text", JStr("")).s;
      var cacheControl := Get(block, "cache_control", EmptyObj);
      var contentType := Unknown;
      if Contains(text, "billing-header") {
        contentType := Billing;
      } else if Contains(text, "You are Claude Code") {
        contentType := Identity;
      } else if Contains(text, "You are an interactive CLI") {
        contentType := Instructions;
      } else if ContainsIgnoreCase(text, "skill") {
        contentType := SkillRelated;
      }
      formatted := formatted + [SystemBlock(i, contentType, |text|, cacheControl, text, Preview(text, SystemPreviewLength))];
      i := i + 1;
    }
  }

  // ---------------------------------------------------------------------------
  // Message content blocks

  const BlockPreviewLength: nat := 300

  /** The two markers that name a skill file mention "skill" once lowercased. */
  lemma SkillMarkersMentionSkill(text: string)
    ensures Contains(text, "Base directory for this skill:") ==> ContainsIgnoreCase(text, "skill")
    ensures Contains(text, "SKILL.md") ==> ContainsIgnoreCase(text, "skill")
  {
    if Contains(text, "Base directory for this skill:") {
      var m := "Base directory for this skill:";
      assert Lower(m)[24..29] == "skill";
      ContainsThroughLower(text, m, "skill", 24);
    }
    if Contains(text, "SKILL.md") {
      var m := "SKILL.md";
      assert Lower(m)[0..5] == "skill";
      ContainsThroughLower(text, m, "skill", 0);
    }
  }

  /** `has_skill_content` of a text block: one of three content markers, each of
      which mentions "skill" when lowercased. */
  predicate HasSkillContent(text: string)
    ensures HasSkillContent(text) ==> ContainsIgnoreCase(text, "skill")
  {
    SkillMarkersMentionSkill(text);
    || Contains(text, "Base directory for this skill:")
    || (Contains(text, "<system-reminder>") && ContainsIgnoreCase(text, "skill"))
    || Contains(text, "SKILL.md")
  }

  /** `has_skill_reference` of a text block. With `has_skill_content` it partitions
      the texts that mention "skill" in any case: the two never hold together, and
      one of them holds exactly when the lowercased text contains "skill". */
  predicate HasSkillReference(text: string)
    ensures !(HasSkillContent(text) && HasSkillReference(text))
    ensures HasSkillContent(text) || HasSkillReference(text) <==> ContainsIgnoreCase(text, "skill")
  {
    ContainsIgnoreCase(text, "skill") && !HasSkillContent(text)
  }

  /** A text that mentions "skill" in passing, without any of the three content
      markers, is a skill reference and not skill content. */
  lemma CasualMentionIsReference()
    ensures !HasSkillContent("this mentions skill casually")
    ensures HasSkillReference("this mentions skill casually")
  {
    var t := "this mentions skill casually";
    assert Lower(t)[14..19] == "skill";
    assert OccursAt(Lower(t), "skill", 14);
    MissingCharNotContained(t, "Base directory for this skill:", 0);
    MissingCharNotContained(t, "<system-reminder>", 0);
    MissingCharNotContained(t, "SKILL.md", 0);
  }

  /** A formatted content block. `OtherBlock` is what a block of an unrecognised
      type, or a `tool_result` whose content is not a string, becomes: its index
      and its raw `type` only. */
  datatype ContentBlock =
    | TextBlock(index: nat, length: nat, hasSkillContent: bool, hasSkillReference: bool,
                content: string, preview: string)
    | ToolUseBlock(index: nat, toolName: Value, toolId: Value, input: Value)
    | ToolResultBlock(index: nat, toolUseId: Value, length: nat, hasSkillContent: bool, preview: string)
    | OtherBlock(index: nat, blockType: Value)

  function BlockType(block: Value): Value
    requires block.JObj?
  {
    Get(block, "type", JStr("unknown"))
  }

  /** A content block the source can format: an object, whose `text` is a string
      when it is a text block. */
  predicate ContentBlockShape(block: Value)
  {
    block.JObj? && (BlockType(block) == JStr("text") ==> Get(block, "text", JStr("")).JStr?)
  }

  /** The record the inner loop of `format_messages` appends for block `j`. */
  function FormatBlock(j: nat, block: Value): (r: ContentBlock)
    requires ContentBlockShape(block)
    ensures r.index == j
    ensures r.TextBlock? <==> BlockType(block) == JStr("text")
    ensures r.ToolUseBlock? <==> BlockType(block) == JStr("tool_use")
    ensures r.ToolResultBlock? <==>
      BlockType(block) == JStr("tool_result") && Get(block, "content", JStr("")).JStr?
    ensures r.OtherBlock? ==> r.blockType == BlockType(block)
    ensures r.TextBlock? ==>
      && r.content == Get(block, "text", JStr("")).s
      && r.length == |r.content|
      && r.hasSkillContent == HasSkillContent(r.content)
      && r.hasSkillReference == HasSkillReference(r.content)
      && !(r.hasSkillContent && r.hasSkillReference)
      && (r.hasSkillContent || r.hasSkillReference <==> ContainsIgnoreCase(r.content, "skill"))
      && r.preview == Preview(r.content, BlockPreviewLength)
    ensures r.ToolUseBlock? ==>
      && r.toolName == Get(block, "name", JStr(""))
      && r.toolId == Get(block, "id", JStr(""))
      && r.input == Get(block, "input", EmptyObj)
    ensures r.ToolResultBlock? ==>
      var content := Get(block, "content", JStr("")).s;
      && r.length == |content|
      && (r.hasSkillContent <==> ContainsIgnoreCase(content, "skill"))
      && r.preview == Preview(content, BlockPreviewLength)
      && r.toolUseId == Get(block, "tool_use_id", JStr(""))
  {
    var blockType := BlockType(block);
    if blockType == JStr("text") then
      var text := Get(block, "text", JStr("")).s;
      TextBlock(j, |text|, HasSkillContent(text), HasSkillReference(text), text,
                Preview(text, BlockPreviewLength))
    else if blockType == JStr("tool_use") then
      ToolUseBlock(j, Get(block, "name", JStr("")), Get(block, "id", JStr("")), Get(block, "input", EmptyObj))
    else if blockType == JStr("tool_result") && Get(block, "content", JStr("")).JStr? then
      var content := Get(block, "content", JStr("")).s;
      ToolResultBlock(j, Get(block, "tool_use_id", JStr("")), |content|, ContainsIgnoreCase(content, "skill"),
                      Preview(content, BlockPreviewLength))
    else
      OtherBlock(j, blockType)
  }

  // ---------------------------------------------------------------------------
  // Messages

  datatype Message = Message(index: nat, role: Value, blocks: seq<ContentBlock>)

  /** A message the source can format: an object whose `content`, when it is a
      list, holds only formattable blocks. */
  predicate MessageShape(msg: Value)
  {
    && msg.JObj?
    && (var content := Get(msg, "content", EmptyArr);
        content.JArr? ==> forall j :: 0 <= j < |content.items| ==> ContentBlockShape(content.items[j]))
  }

  /** The content elements `format_messages` walks: `content` when it is a list, nothing otherwise. */
  function ContentItems(msg: Value): (items: seq<Value>)
    requires MessageShape(msg)
    ensures forall j :: 0 <= j < |items| ==> ContentBlockShape(items[j])
  {
    var content := Get(msg, "content", EmptyArr);
    if content.JArr? then content.items else []
  }

  function RoleOf(msg: Value): Value
    requires MessageShape(msg)
  {
    Get(msg, "role", JStr(""))
  }

  function FormatMessage(i: nat, msg: Value): Message
    requires MessageShape(msg)
  {
    var items := ContentItems(msg);
    Message(i, RoleOf(msg),
            seq(|items|, j requires 0 <= j < |items| => FormatBlock(j, items[j])))
  }

  /** What `format_messages` returns: one record per message, in order, with the
      message's position and role, and one block per content element, at its own
      position, when `content` is a list (none otherwise). */
  function MessagesOf(messages: seq<Value>): (r: seq<Message>)
    requires forall k :: 0 <= k < |messages| ==> MessageShape(messages[k])
    ensures |r| == |messages|
    ensures forall i :: 0 <= i < |r| ==>
      && r[i].index == i
      && r[i].role == RoleOf(messages[i])
      && |r[i].blocks| == |ContentItems(messages[i])|
      && forall j :: 0 <= j < |r[i].blocks| ==> r[i].blocks[j] == FormatBlock(j, ContentItems(messages[i])[j])
  {
    seq(|messages|, i requires 0 <= i < |messages| => FormatMessage(i, messages[i]))
  }

  /** `format_messages`: an outer loop over messages and an inner loop over the
      content blocks of each. */
  method FormatMessages(messages: seq<Value>) returns (formatted: seq<Message>)
    requires forall k :: 0 <= k < |messages| ==> MessageShape(messages[k])
    ensures formatted == MessagesOf(messages)
  {
    formatted := [];
    var i := 0;
    while i < |messages|
      invariant 0 <= i <= |messages|
      invariant formatted == MessagesOf(messages)[..i]
    {
      var msg := messages[i];
      var role := Get(msg, "role", JStr(""));
      var content := Get(msg, "content", EmptyArr);
      var blocks: seq<ContentBlock> := [];
      if content.JArr? {
        var j := 0;
        while j < |content.items|
          invariant 0 <= j <= |content.items|
          invariant blocks == FormatMessage(i, msg).blocks[..j]
        {
          blocks := blocks + [FormatBlock(j, content.items[j])];
          j := j + 1;
        }
      }
      assert blocks == FormatMessage(i, msg).blocks;
      formatted := formatted + [Message(i, role, blocks)];
      i := i + 1;
    }
  }

  // ---------------------------------------------------------------------------
  // The Skill tool

  /** The tool `extract_skill_tool` looks for: an object named exactly "Skill". */
  predicate IsSkillTool(tool: Value)
  {
    tool.JObj? && Get(tool, "name", JNull) == JStr("Skill")
  }

  /** Position of the first Skill tool, or -1. */
  function FirstSkillTool(tools: seq<Value>): (r: int)
    ensures -1 <= r < |tools|
    ensures r == -1 <==> forall k :: 0 <= k < |tools| ==> !IsSkillTool(tools[k])
    ensures r != -1 ==> IsSkillTool(tools[r]) && forall k :: 0 <= k < r ==> !IsSkillTool(tools[k])
  {
    if tools == [] then -1
    else if IsSkillTool(tools[0]) then 0
    else
      var r := FirstSkillTool(tools[1..]);
      assert forall k :: 1 <= k < |tools| ==> tools[k] == tools[1..][k - 1];
      if r == -1 then -1 else r + 1
  }

  /** A tool list the scan can walk: every tool it looks at is an object, and the
      description of the Skill tool, if any, is a string. */
  predicate ToolsShape(tools: seq<Value>)
  {
    var f := FirstSkillTool(tools);
    (forall k :: 0 <= k < |tools| && (f == -1 || k < f) ==> tools[k].JObj?) &&
    (f != -1 ==> Get(tools[f], "description", JStr("")).JStr?)
  }

  const AvailableSkillsMarker: string := "Available skills:"

  datatype SkillTool = SkillTool(name: string, descriptionLength: nat,
                                 availableSkillsSection: string, fullDescription: string)

  /** The descriptor built from the Skill tool's description: its full text and
      length, and the suffix that begins at the first "Available skills:", or ""
      when the marker does not occur. */
  function DescribeSkillTool(desc: string): (r: SkillTool)
    ensures r.name == "Skill" && r.fullDescription == desc && r.descriptionLength == |desc|
    ensures !Contains(desc, AvailableSkillsMarker) ==> r.availableSkillsSection == ""
    ensures Contains(desc, AvailableSkillsMarker) ==>
      var start := |desc| - |r.availableSkillsSection|;
      && 0 <= start
      && r.availableSkillsSection == desc[start..]
      && OccursAt(r.availableSkillsSection, AvailableSkillsMarker, 0)
      && forall j: nat :: j < start ==> !OccursAt(desc, AvailableSkillsMarker, j)
  {
    var skillsStart := IndexOf(desc, AvailableSkillsMarker);
    var availableSkills := if skillsStart != -1 then desc[skillsStart..] else "";
    SkillTool("Skill", |desc|, availableSkills, desc)
  }

  /** What `extract_skill_tool` returns: nothing when no tool is named "Skill",
      otherwise the descriptor of the first one. */
  function SkillToolOf(tools: seq<Value>): (r: Option<SkillTool>)
    requires ToolsShape(tools)
    ensures r.None? <==> forall k :: 0 <= k < |tools| ==> !IsSkillTool(tools[k])
    ensures r.Some? ==>
      exists k :: 0 <= k < |tools| && IsSkillTool(tools[k]) &&
        (forall j :: 0 <= j < k ==> !IsSkillTool(tools[j])) &&
        Get(tools[k], "description", JStr("")) == JStr(r.value.fullDescription) &&
        r.value == DescribeSkillTool(r.value.fullDescription)
  {
    var f := FirstSkillTool(tools);
    if f == -1 then None else Some(DescribeSkillTool(Get(tools[f], "description", JStr("")).s))
  }

  /** `extract_skill_tool`: a scan with an early return at the first Skill tool. */
  method ExtractSkillTool(tools: seq<Value>) returns (r: Option<SkillTool>)
    requires ToolsShape(tools)
    ensures r == SkillToolOf(tools)
  {
    var i := 0;
    while i < |tools|
      invariant 0 <= i <= |tools|
      invariant forall k :: 0 <= k < i ==> !IsSkillTool(tools[k])
    {
      var tool := tools[i];
      assert tool.JObj?;
      if Get(tool, "name", JNull) == JStr("Skill") {
        var desc := Get(tool, "description", JStr("")).s;
        var skillsStart := IndexOf(desc, AvailableSkillsMarker);
        var availableSkills := "";
        if skillsStart != -1 {
          availableSkills := desc[skillsStart..];
        }
        return Some(SkillTool("Skill", |desc|, availableSkills, desc));
      }
      i := i + 1;
    }
    return None;
  }

  // ---------------------------------------------------------------------------
  // Worked examples

  /** A tool list whose Skill tool lists its skills after a short introduction. */
  const ExampleTools: seq<Value> :=
    [JObj(map["name" := JStr("Read"), "description" := JStr("Reads a file")]),
     JObj(map["name" := JStr("Skill"), "description" := JStr("intro... " + AvailableSkillsMarker + " A, B")])]

  /** When the text before a marker holds no 'A' (the marker's first letter),
      the skills section is exactly the marker and everything after it. */
  lemma SectionFromMarker(pre: string, post: string)
    requires 'A' !in pre
    ensures DescribeSkillTool(pre + AvailableSkillsMarker + post).availableSkillsSection
            == AvailableSkillsMarker + post
  {
    var desc := pre + AvailableSkillsMarker + post;
    FirstOccurrenceAfter(pre, AvailableSkillsMarker, post);
    assert desc[|pre|..] == AvailableSkillsMarker + post;
  }

  /** The Skill tool is found after a tool of another name, and its skills section
      is the description from "Available skills:" on. */
  lemma ExampleSkillSection()
    ensures ToolsShape(ExampleTools)
    ensures SkillToolOf(ExampleTools).Some?
    ensures SkillToolOf(ExampleTools).value.availableSkillsSection == AvailableSkillsMarker + " A, B"
  {
    var desc := "intro... " + AvailableSkillsMarker + " A, B";
    assert Get(ExampleTools[0], "name", JNull) == JStr("Read");
    assert Get(ExampleTools[1], "name", JNull) == JStr("Skill");
    assert Get(ExampleTools[1], "description", JStr("")) == JStr(desc);
    assert FirstSkillTool(ExampleTools[1..]) == 0;
    assert FirstSkillTool(ExampleTools) == 1;
    assert 'A' !in "intro... ";
    SectionFromMarker("intro... ", " A, B");
  }
}

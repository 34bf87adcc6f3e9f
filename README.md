# Skill-usage log parser, modelled in Dafny

`log_parser.py` reads a line-delimited JSON log written by an API proxy, keeps
the entries of type `"request body"`, and turns each into a record describing how
the request uses skills: its system prompt blocks, classified as billing,
identity, instructions, skill-related or unknown; its messages, whose content
blocks are text, tool calls, tool results or unknown; the `Skill` tool definition
with its "Available skills:" section; and per-request stats. The records, in line
order, and their count form the report.

This project models everything between JSON decoding and JSON encoding:

- `option.dfy`, module `Optional`: the `Option` type that stands for Python's
  `None`-or-value results.
- `json.dfy`, module `Json`: decoded JSON values (`Value`), `dict.get` with a
  default (`Get`), and Python truthiness (`Truthy`).
- `text.dfy`, module `Text`: `t in s` (`Contains`, defined by `OccursAt`),
  `s.find(t)` (`IndexOf`), ASCII `s.lower()` (`Lower`), the newline-flattened
  preview `s[:n].replace("\n", " ")` (`Preview`), and `str(n)` (`NatToString`).
- `log_parser.dfy`, module `LogParser`: `extract_request_body`,
  `format_system_prompts`, `format_messages` and `extract_skill_tool`. The
  builders are methods with loops proved equal to specification functions
  (`SystemPromptsOf`, `MessagesOf`, `SkillToolOf`). The classifiers are functions.
- `log_report.dfy`, module `LogReport`: the record and stats assembly of
  `analyze_log_file`, over one `Option<Value>` per physical line. `None` stands
  for a line the decoder rejected. `AnalyzeLog` is the loop, and `RecordsOf` is
  its specification.

Each builder and classifier is paired with something independent:

- The system prompt if-chain is paired with a first-match reading of a rule table
  (`PromptRules`, `FirstMatch`).
- The skill-content flags are paired with "contains skill, ignoring case".
- The Skill tool scan is paired with the position of the first tool named
  `Skill`.
- The report is paired with lemmas on line numbers: they are in order, and a line
  has a record exactly when it is kept.

The source raises an exception on some input shapes, such as calling `.get` on
something that is not a dict or `.lower()` on something that is not a string.
Those shapes are excluded by shape predicates (`SystemBlockShape`,
`ContentBlockShape`, `MessageShape`, `ToolsShape`, `BodyShape`, `TimeShape`,
`LineShape`). The predicates follow the source's own field accesses. They are
not exact, in two ways, both listed under "## Left out". They exclude a few
shapes Python tolerates. They admit integer timestamps that Python's date
conversion rejects.

Behaviour reproduced as written:

- `has_skill_invocation` reads `tool_name` from the raw content blocks, but a raw
  `tool_use` block carries `name`. `has_skill_content_in_messages` reads
  `has_skill_content` from the raw blocks, but only formatted blocks have that
  key. On ordinary input both stats are false. `StandardBlocksLeaveStatsFalse`
  proves this for all messages whose blocks carry only messages-API keys.
  `SkillCallNotCountedAsInvocation` and `SkillContentNotCountedInStats` show it
  on concrete messages.
- Falsy decoded lines (`{}`, `0`, `""`, ...) are skipped. So are request bodies
  whose `data` is missing, `{}` or `null`. `EmptyPayloadDropped` shows that a
  request-body line whose `data` is `{}` yields no record.
- Line numbers are physical: they count skipped and undecodable lines too.
- A `tool_result` block is classified only when its content is a string.
  Otherwise it becomes an `OtherBlock` that keeps only its index and type.
- System prompt previews keep 200 characters. Message text and tool result
  previews keep 300.

## Model

| member | source | states |
|---|---|---|
| `Json.Get` | log_parser.py:27-28 | `dict.get(key, default)`: the stored value when the key is present, the default otherwise. |
| `Json.Truthy` | log_parser.py:152-157 | A value is falsy exactly when it is `None`, `False`, `0`, `""`, `[]` or `{}`. |
| `Text.Contains` | log_parser.py:41-47 | `t in s`: the empty string is always contained, and a contained string is no longer than `s`. |
| `Text.Lower` | log_parser.py:47 | `s.lower()` keeps the length and lowercases each character in place. |
| `Text.NatToString` | log_parser.py:158 | `str(n)`: decimal digits only, one digit exactly when `n < 10`, and no leading zero otherwise. |
| `Text.IndexOf` | log_parser.py:132 | `find` returns -1 exactly when the marker does not occur. Otherwise it returns an occurrence with no earlier one. |
| `Text.Preview` | log_parser.py:56 | The preview has length `min(n, |s|)` and contains no newline. Each of its characters is the text's, with a newline replaced by a space. |
| `Text.NatToStringRoundTrip` | log_parser.py:158 | The decimal rendering of a line number in the default request id reads back as the same number. |
| `LogParser.ExtractRequestBody` | log_parser.py:25-29 | A payload is returned exactly when `type` is the string "request body". It is `data` when present and an empty object otherwise. |
| `LogParser.ClassifySystemText` | log_parser.py:39-48 | The content type is "billing" exactly when the billing header occurs, whatever else the text says. It is "unknown" exactly when none of the four markers occurs. |
| `LogParser.FirstMatch` | log_parser.py:40-48 | The first-match reading of a rule list: `Unknown` exactly when no rule matches. Otherwise the kind of a matching rule that no earlier rule shadows. |
| `LogParser.ClassifyIsFirstMatch` | log_parser.py:39-48 | The content-type chain equals the first-match reading of billing-header, identity, instructions, then case-insensitive "skill". |
| `LogParser.SystemPromptsOf` | log_parser.py:32-59 | One record per system block, in order. Each carries its position, its text, the text's length and its `cache_control`. Its preview is the text's first 200 characters with each newline turned into a space, so it has `min(200, length)` characters and no newline. |
| `LogParser.SystemPromptKinds` | log_parser.py:39-54 | The kind recorded for each system block is the first-match reading of the rule table on its text. |
| `LogParser.FormatSystemPrompts` | log_parser.py:32-59 | The appending loop returns exactly `SystemPromptsOf(system)`. |
| `LogParser.SkillMarkersMentionSkill` | log_parser.py:86-90 | The markers "Base directory for this skill:" and "SKILL.md" each make the lowercased text contain "skill". |
| `LogParser.HasSkillContent` | log_parser.py:86-90 | `has_skill_content` holds only for texts that contain "skill" once lowercased. |
| `LogParser.HasSkillReference` | log_parser.py:86-91 | `has_skill_content` and `has_skill_reference` never hold together. One of them holds exactly when the lowercased text contains "skill". |
| `LogParser.CasualMentionIsReference` | log_parser.py:86-91 | "this mentions skill casually" is a skill reference and not skill content. |
| `LogParser.FormatBlock` | log_parser.py:77-118 | The block keeps its position. It is a text block exactly when its type is "text". A text block has the text, its length, `has_skill_content` equal to `HasSkillContent` of the text, `has_skill_reference` equal to `HasSkillReference` of the text, and a 300-character preview. It is a tool-use block exactly when its type is "tool_use"; name, id and input are passed through with their defaults. It is a tool-result block exactly when its type is "tool_result" and its content is a string; it has the content's length, "skill" ignoring case, the preview and `tool_use_id`. Any other block keeps only its raw type. |
| `LogParser.MessagesOf` | log_parser.py:62-122 | One record per message, in order, with its position and role. It has one formatted block per content element, at that element's position, when `content` is a list, and none otherwise. |
| `LogParser.FormatMessages` | log_parser.py:62-122 | The nested appending loops return exactly `MessagesOf(messages)`. |
| `LogParser.FirstSkillTool` | log_parser.py:127-128 | The position of the first tool named exactly "Skill", or -1 exactly when there is none. |
| `LogParser.DescribeSkillTool` | log_parser.py:129-142 | The descriptor keeps the full description and its length. Its skills section is "" when "Available skills:" does not occur. Otherwise it is the suffix of the description that starts at the first occurrence. |
| `LogParser.SkillToolOf` | log_parser.py:125-143 | Nothing exactly when no tool is named "Skill". Otherwise the descriptor of the first such tool's description. |
| `LogParser.ExtractSkillTool` | log_parser.py:125-143 | The scan with early return gives exactly `SkillToolOf(tools)`. |
| `LogParser.SectionFromMarker` | log_parser.py:132-135 | When the text before the marker has no 'A', the skills section is the marker and everything after it. |
| `LogParser.ExampleSkillSection` | log_parser.py:125-143 | For a Skill tool described as "intro... Available skills: A, B", listed after another tool, the section is "Available skills: A, B". |
| `LogReport.SystemPromptTotalChars` | log_parser.py:178 | No system block is longer than the total, and the total is 0 exactly when every block's text is empty. |
| `LogReport.HasSkillInvocation` | log_parser.py:180-185 | The stat can hold only when some raw content block carries a `tool_name` key. |
| `LogReport.HasSkillContentInMessages` | log_parser.py:186-191 | The stat can hold only when some raw content block carries a `has_skill_content` key. |
| `LogReport.StandardBlocksLeaveStatsFalse` | log_parser.py:180-191 | When every raw content block carries only messages-API keys, both stats are false, whatever the formatted blocks say. |
| `LogReport.TotalCharsMatchFormatted` | log_parser.py:178 | `system_prompt_total_chars`, summed over the raw blocks, equals the sum of the formatted blocks' `length` fields. |
| `LogReport.BuildRecord` | log_parser.py:158-193 | The record carries its line number. `request_id` is `reqId`, or "unknown-<line>" when absent. `timestamp` is the raw `time` (default 0), and `model` the raw `model` (default ""). `timestamp_readable` is absent exactly when the timestamp is falsy, and for an integer exactly when it is 0; otherwise it is the rendering of the timestamp. `tool_count` is the number of tools. `message_count` is the number of messages and of formatted messages. The character total is the sum of the formatted lengths. `has_skill_invocation` and `has_skill_content_in_messages` are the raw-block stats `HasSkillInvocation` and `HasSkillContentInMessages`. |
| `LogReport.Kept` | log_parser.py:152-157 | A kept line decoded to an object whose `type` is "request body", with a payload of processable shape. |
| `LogReport.RecordAt` | log_parser.py:152-157 | A line yields a record exactly when it decoded to a truthy entry of type "request body" with truthy `data`. The record carries the line's number. |
| `LogReport.RecordsOrdered` | log_parser.py:151-195 | Records are in input order. Their line numbers lie in 1..number of lines and strictly increase, so there are at most as many records as lines. |
| `LogReport.RecordsComplete` | log_parser.py:151-157 | Line n has a record exactly when it is kept, and that record is the one built for line n. |
| `LogReport.DroppedLinesLeaveNoRecord` | log_parser.py:17-29 | An undecodable line, or an entry whose type is not "request body", leaves no record. |
| `LogReport.AssembleRecord` | log_parser.py:158-193 | The statements that build a kept line's record produce exactly `BuildRecord` for that line. |
| `LogReport.RecordForLine` | log_parser.py:152-195 | One pass of the loop yields exactly `RecordAt` for its line: nothing for a skipped line, the built record otherwise. |
| `LogReport.AnalyzeLog` | log_parser.py:146-201 | The loop's report names the log file and holds exactly `RecordsOf(lines)`. `total_requests` is the number of records. |
| `LogReport.SkillCallNotCountedAsInvocation` | log_parser.py:180-185 | A message whose formatted block is a call of the Skill tool still has `has_skill_invocation` false, because the raw block has no `tool_name`. |
| `LogReport.SkillContentNotCountedInStats` | log_parser.py:186-191 | A text block flagged as skill content (and not as reference) still leaves `has_skill_content_in_messages` false. |
| `LogReport.BareLineReport` | log_parser.py:150-195 | A one-line log gives exactly one record when its line is a request body without `reqId`, with a nonzero `time` and a non-empty payload holding no system, messages or tools. The record has line 1, id "unknown-" followed by the decimal rendering of 1, the rendered time, message count 0 and no Skill tool. |
| `LogReport.BareRequestReport` | log_parser.py:156-176 | One request-body line with a timestamp and no system, messages or tools gives one record. It has line 1, id "unknown-1", a rendered timestamp, message count 0 and no Skill tool. |
| `LogReport.EmptyPayloadDropped` | log_parser.py:157 | A request-body line whose `data` is `{}` yields no record. |

## Left out

- Reading the file, `parse_log_line` and `json.loads` (log_parser.py:17-22, 150-151) are left out. The model's input is one `Option<Value>` per physical line.
- `main`, `argparse`, `json.dumps` with or without indentation, and writing the output (log_parser.py:204-226) are I/O and serialisation. Output records are Dafny datatypes, not dicts.
- `datetime.fromtimestamp(timestamp/1000).isoformat()` depends on float division and the local time zone. It is the `render` parameter, applied to the millisecond value.
- `TimeShape` admits every integer timestamp, and `render` is total. So the model builds a record where `datetime.fromtimestamp` would raise for a timestamp outside years 1-9999 or beyond float range (log_parser.py:170), ending the run.
- JSON floating-point numbers are not modelled: `Value` numbers are integers.
- `str.lower()` is modelled as ASCII lowercasing only. Unicode case mapping is not modelled.
- Inputs on which the source raises an exception are excluded by the shape predicates, except the out-of-range timestamps above. Examples are a non-dict truthy entry, a non-list `system`, a non-string `text`, a non-dict content block, and a non-numeric truthy `time`. The predicates also exclude a few shapes that Python happens to tolerate, such as an empty string or empty dict where a list is expected, which Python iterates as empty.
- `cache_control`, the tool-use `input`, `role`, `model`, `reqId` and `time` are opaque values passed through unchanged.

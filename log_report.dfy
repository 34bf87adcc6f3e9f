/** The report assembly of the log parser (`analyze_log_file` without the file
    handle): one record per kept log line, in line order, with per-request stats.
    A log arrives as one `Option<Value>` per physical line, `None` for a line the
    JSON decoder rejected. Rendering a millisecond timestamp as an ISO-8601 string
    depends on the local time zone, so the renderer is a parameter. */
module LogReport {
  import opened Optional
  import opened Json
  import opened Text
  import opened LogParser

  // ---------------------------------------------------------------------------
  // Shapes the source can process without raising

  /** A request body the source can process: an object whose `system`, `messages`
      and `tools` (each defaulting to an empty list) are lists of processable items. */
  predicate BodyShape(body: Value)
  {
    && body.JObj?
    && (var system := Get(body, "system", EmptyArr);
        system.JArr? && forall k :: 0 <= k < |system.items| ==> SystemBlockShape(system.items[k]))
    && (var messages := Get(body, "messages", EmptyArr);
        messages.JArr? && forall k :: 0 <= k < |messages.items| ==> MessageShape(messages.items[k]))
    && (var tools := Get(body, "tools", EmptyArr);
        tools.JArr? && ToolsShape(tools.items))
  }

  function SystemList(body: Value): (system: seq<Value>)
    requires BodyShape(body)
    ensures forall k :: 0 <= k < |system| ==> SystemBlockShape(system[k])
  {
    Get(body, "system", EmptyArr).items
  }

  function MessageList(body: Value): (messages: seq<Value>)
    requires BodyShape(body)
    ensures forall k :: 0 <= k < |messages| ==> MessageShape(messages[k])
  {
    Get(body, "messages", EmptyArr).items
  }

  function ToolList(body: Value): (tools: seq<Value>)
    requires BodyShape(body)
    ensures ToolsShape(tools)
  {
    Get(body, "tools", EmptyArr).items
  }

  /** A `time` value the source can render: falsy, or a number (a JSON `true` counts as 1). */
  predicate TimeShape(time: Value)
  {
    time.JInt? || time.JBool? || !Truthy(time)
  }

  function Millis(time: Value): int
    requires TimeShape(time) && Truthy(time)
  {
    if time.JBool? then 1 else time.n
  }

  /** A decoded line the source can process without raising: undecodable, falsy,
      or an object; and when it is a request body with a truthy payload, that
      payload and the entry's `time` have processable shapes. */
  predicate LineShape(line: Option<Value>)
  {
    line.Some? && Truthy(line.value) ==>
      && line.value.JObj?
      && (var body := ExtractRequestBody(line.value);
          body.Some? && Truthy(body.value) ==>
            BodyShape(body.value) && TimeShape(Get(line.value, "time", JInt(0))))
  }

  /** The line yields a record: it decoded to a truthy entry of type "request body"
      whose `data` is truthy. */
  predicate Kept(line: Option<Value>)
    requires LineShape(line)
    ensures Kept(line) ==>
      && line.Some? && line.value.JObj?
      && "type" in line.value.fields && line.value.fields["type"] == JStr("request body")
      && ExtractRequestBody(line.value).Some?
      && BodyShape(ExtractRequestBody(line.value).value)
  {
    && line.Some?
    && Truthy(line.value)
    && ExtractRequestBody(line.value).Some?
    && Truthy(ExtractRequestBody(line.value).value)
  }

  // ---------------------------------------------------------------------------
  // Stats

  /** `sum(len(b.get("text", "")) for b in system)`: no block is longer than the
      total, and the total is 0 exactly when every block's text is empty. */
  function SystemPromptTotalChars(system: seq<Value>): (r: nat)
    requires forall k :: 0 <= k < |system| ==> SystemBlockShape(system[k])
    ensures forall k :: 0 <= k < |system| ==> |TextOf(system[k])| <= r
    ensures r == 0 <==> forall k :: 0 <= k < |system| ==> TextOf(system[k]) == ""
  {
    if system == [] then 0
    else
      var n := |system| - 1;
      assert forall k :: 0 <= k < n ==> system[..n][k] == system[k];
      SystemPromptTotalChars(system[..n]) + |TextOf(system[n])|
  }

  /** The sum of the `length` fields of formatted system blocks. */
  function SumLengths(blocks: seq<SystemBlock>): nat
  {
    if blocks == [] then 0 else SumLengths(blocks[..|blocks| - 1]) + blocks[|blocks| - 1].length
  }

  lemma {:induction false} SumOfMatchingLengths(system: seq<Value>, blocks: seq<SystemBlock>)
    requires forall k :: 0 <= k < |system| ==> SystemBlockShape(system[k])
    requires |blocks| == |system|
    requires forall k :: 0 <= k < |blocks| ==> blocks[k].length == |TextOf(system[k])|
    ensures SystemPromptTotalChars(system) == SumLengths(blocks)
  {
    if system != [] {
      var n := |system| - 1;
      SumOfMatchingLengths(system[..n], blocks[..n]);
    }
  }

  /** `system_prompt_total_chars`, computed from the raw blocks, equals the sum of
      the `length` fields of the formatted blocks. */
  lemma TotalCharsMatchFormatted(system: seq<Value>)
    requires forall k :: 0 <= k < |system| ==> SystemBlockShape(system[k])
    ensures SystemPromptTotalChars(system) == SumLengths(SystemPromptsOf(system))
  {
    var blocks := SystemPromptsOf(system);
    assert forall k :: 0 <= k < |blocks| ==> blocks[k].length == |TextOf(system[k])|;
    SumOfMatchingLengths(system, blocks);
  }

  /** A raw content block carrying `tool_name == "Skill"`. */
  predicate RawInvokesSkill(block: Value)
  {
    block.JObj? && Get(block, "tool_name", JNull) == JStr("Skill")
  }

  /** A raw content block carrying a truthy `has_skill_content`. */
  predicate RawHasSkillContent(block: Value)
  {
    block.JObj? && Truthy(Get(block, "has_skill_content", JBool(false)))
  }

  /** `has_skill_invocation`: evaluated over the RAW content blocks, so it can only
      hold when some raw block carries a `tool_name` key. */
  predicate HasSkillInvocation(messages: seq<Value>)
    requires forall k :: 0 <= k < |messages| ==> MessageShape(messages[k])
    ensures HasSkillInvocation(messages) ==>
      exists i, j :: 0 <= i < |messages| && 0 <= j < |ContentItems(messages[i])| &&
        "tool_name" in ContentItems(messages[i])[j].fields
  {
    exists i | 0 <= i < |messages| ::
      exists j | 0 <= j < |ContentItems(messages[i])| :: RawInvokesSkill(ContentItems(messages[i])[j])
  }

  /** `has_skill_content_in_messages`: evaluated over the RAW content blocks, so it
      can only hold when some raw block carries a `has_skill_content` key. */
  predicate HasSkillContentInMessages(messages: seq<Value>)
    requires forall k :: 0 <= k < |messages| ==> MessageShape(messages[k])
    ensures HasSkillContentInMessages(messages) ==>
      exists i, j :: 0 <= i < |messages| && 0 <= j < |ContentItems(messages[i])| &&
        "has_skill_content" in ContentItems(messages[i])[j].fields
  {
    exists i | 0 <= i < |messages| ::
      exists j | 0 <= j < |ContentItems(messages[i])| :: RawHasSkillContent(ContentItems(messages[i])[j])
  }

  /** The keys a content block of the messages API carries. */
  const ApiBlockKeys: set<string> :=
    {"type", "text", "id", "name", "input", "tool_use_id", "content", "is_error", "cache_control", "citations"}

  /** On messages whose raw blocks carry only the keys of the messages API, both
      stats are false, whatever the formatted blocks (`MessagesOf`) say: a call of
      the Skill tool or a skill-content text block does not change them. */
  lemma StandardBlocksLeaveStatsFalse(messages: seq<Value>)
    requires forall k :: 0 <= k < |messages| ==> MessageShape(messages[k])
    requires forall i, j, key ::
      (0 <= i < |messages| && 0 <= j < |ContentItems(messages[i])| && key in ContentItems(messages[i])[j].fields)
      ==> key in ApiBlockKeys
    ensures !HasSkillInvocation(messages)
    ensures !HasSkillContentInMessages(messages)
  {
    assert "tool_name" !in ApiBlockKeys && "has_skill_content" !in ApiBlockKeys;
  }

  // ---------------------------------------------------------------------------
  // Records

  datatype Stats = Stats(
    systemPromptTotalChars: nat,
    messageCount: nat,
    hasSkillInvocation: bool,
    hasSkillContentInMessages: bool)

  datatype RequestRecord = RequestRecord(
    requestId: Value,
    timestamp: Value,
    timestampReadable: Option<string>,
    model: Value,
    lineNumber: nat,
    systemPrompts: seq<SystemBlock>,
    messages: seq<Message>,
    skillTool: Option<SkillTool>,
    toolCount: nat,
    stats: Stats)

  datatype Report = Report(logFile: string, totalRequests: nat, requests: seq<RequestRecord>)

  /** The request id recorded for an entry on line `lineNum`. */
  function RequestIdOf(entry: Value, lineNum: nat): Value
    requires entry.JObj?
  {
    Get(entry, "reqId", JStr("unknown-" + NatToString(lineNum)))
  }

  /** The record built for a kept entry on line `lineNum` with payload `body`. */
  function BuildRecord(lineNum: nat, entry: Value, body: Value, render: int -> string): (r: RequestRecord)
    requires entry.JObj? && BodyShape(body) && TimeShape(Get(entry, "time", JInt(0)))
    ensures r.lineNumber == lineNum
    ensures "reqId" in entry.fields ==> r.requestId == entry.fields["reqId"]
    ensures "reqId" !in entry.fields ==> r.requestId == JStr("unknown-" + NatToString(lineNum))
    ensures r.timestamp == Get(entry, "time", JInt(0))
    ensures r.timestampReadable.None? <==> !Truthy(r.timestamp)
    ensures Truthy(r.timestamp) ==> r.timestampReadable == Some(render(Millis(r.timestamp)))
    ensures r.timestamp.JInt? ==> (r.timestampReadable.None? <==> r.timestamp.n == 0)
    ensures r.systemPrompts == SystemPromptsOf(SystemList(body))
    ensures r.messages == MessagesOf(MessageList(body))
    ensures r.skillTool == SkillToolOf(ToolList(body))
    ensures r.toolCount == |ToolList(body)|
    ensures r.stats.messageCount == |r.messages| == |MessageList(body)|
    ensures r.stats.systemPromptTotalChars == SumLengths(r.systemPrompts)
    ensures r.stats.hasSkillInvocation == HasSkillInvocation(MessageList(body))
    ensures r.stats.hasSkillContentInMessages == HasSkillContentInMessages(MessageList(body))
    ensures r.model == Get(body, "model", JStr(""))
  {
    var timestamp := Get(entry, "time", JInt(0));
    var system := SystemList(body);
    var messages := MessageList(body);
    var tools := ToolList(body);
    TotalCharsMatchFormatted(system);
    RequestRecord(
      RequestIdOf(entry, lineNum),
      timestamp,
      if Truthy(timestamp) then Some(render(Millis(timestamp))) else None,
      Get(body, "model", JStr("")),
      lineNum,
      SystemPromptsOf(system),
      MessagesOf(messages),
      SkillToolOf(tools),
      |tools|,
      Stats(SystemPromptTotalChars(system), |messages|,
            HasSkillInvocation(messages), HasSkillContentInMessages(messages)))
  }

  /** What line `lineNum` contributes to the report: a record exactly when it is kept. */
  function RecordAt(lineNum: nat, line: Option<Value>, render: int -> string): (r: Option<RequestRecord>)
    requires LineShape(line)
    ensures r.Some? <==> Kept(line)
    ensures r.Some? ==> r.value.lineNumber == lineNum
  {
    if Kept(line) then Some(BuildRecord(lineNum, line.value, ExtractRequestBody(line.value).value, render))
    else None
  }

  /** What each line of a log contributes, line 1 first. */
  function Outcomes(lines: seq<Option<Value>>, render: int -> string): seq<Option<RequestRecord>>
    requires forall k :: 0 <= k < |lines| ==> LineShape(lines[k])
  {
    seq(|lines|, k requires 0 <= k < |lines| => RecordAt(k + 1, lines[k], render))
  }

  /** The records a line contributes: none or one. */
  function Emitted(record: Option<RequestRecord>): seq<RequestRecord>
  {
    if record.Some? then [record.value] else []
  }

  /** The records among per-line outcomes, in order. */
  function Collect(os: seq<Option<RequestRecord>>): seq<RequestRecord>
  {
    if os == [] then [] else Collect(os[..|os| - 1]) + Emitted(os[|os| - 1])
  }

  /** The report's records: those of the kept lines, in line order. */
  function RecordsOf(lines: seq<Option<Value>>, render: int -> string): seq<RequestRecord>
    requires forall k :: 0 <= k < |lines| ==> LineShape(lines[k])
  {
    Collect(Outcomes(lines, render))
  }

  /** Every outcome carries the physical number of its line. */
  predicate Numbered(os: seq<Option<RequestRecord>>)
  {
    forall k :: 0 <= k < |os| && os[k].Some? ==> os[k].value.lineNumber == k + 1
  }

  predicate LineNumbersWithin(rs: seq<RequestRecord>, count: nat)
  {
    forall a :: 0 <= a < |rs| ==> 1 <= rs[a].lineNumber <= count
  }

  predicate LineNumbersIncrease(rs: seq<RequestRecord>)
  {
    forall a, b :: 0 <= a < b < |rs| ==> rs[a].lineNumber < rs[b].lineNumber
  }

  /** Collecting one more outcome appends what it emits. */
  lemma CollectStep(os: seq<Option<RequestRecord>>, i: nat)
    requires i < |os|
    ensures Collect(os[..i + 1]) == Collect(os[..i]) + Emitted(os[i])
  {
    assert os[..i + 1][..i] == os[..i];
  }

  /** A single outcome is collected as what it emits. */
  lemma CollectSingle(o: Option<RequestRecord>)
    ensures Collect([o]) == Emitted(o)
  {
  }

  /** Collected records keep the order of their lines. */
  lemma {:induction false} CollectOrdered(os: seq<Option<RequestRecord>>)
    requires Numbered(os)
    ensures |Collect(os)| <= |os|
    ensures LineNumbersWithin(Collect(os), |os|)
    ensures LineNumbersIncrease(Collect(os))
  {
    if os != [] {
      var m := |os| - 1;
      var ps := Collect(os[..m]);
      var tail := Emitted(os[m]);
      var rs := Collect(os);
      assert Numbered(os[..m]);
      CollectOrdered(os[..m]);
      assert forall a :: 0 <= a < |tail| ==> tail[a].lineNumber == |os|;
      forall a, b | 0 <= a < b < |rs| ensures rs[a].lineNumber < rs[b].lineNumber {
        if b < |ps| {
          assert rs[a] == ps[a] && rs[b] == ps[b];
        } else {
          assert rs[a] == ps[a] && rs[b] == tail[b - |ps|];
        }
      }
      forall a | 0 <= a < |rs| ensures 1 <= rs[a].lineNumber <= |os| {
        if a < |ps| {
          assert rs[a] == ps[a];
        } else {
          assert rs[a] == tail[a - |ps|];
        }
      }
    }
  }

  /** Every collected record is the outcome of the line whose number it carries. */
  lemma {:induction false} CollectSource(os: seq<Option<RequestRecord>>, a: nat)
    requires Numbered(os)
    requires a < |Collect(os)|
    ensures 1 <= Collect(os)[a].lineNumber <= |os|
    ensures os[Collect(os)[a].lineNumber - 1] == Some(Collect(os)[a])
  {
    var m := |os| - 1;
    var ps := Collect(os[..m]);
    assert Numbered(os[..m]);
    assert Collect(os) == ps + Emitted(os[m]);
    if a < |ps| {
      CollectSource(os[..m], a);
      assert Collect(os)[a] == ps[a];
      assert os[..m][ps[a].lineNumber - 1] == os[ps[a].lineNumber - 1];
    } else {
      assert Collect(os)[a] == os[m].value;
    }
  }

  /** Every record among the outcomes is collected. */
  lemma {:induction false} CollectFind(os: seq<Option<RequestRecord>>, n: nat)
    requires 1 <= n <= |os|
    requires os[n - 1].Some?
    ensures exists a :: 0 <= a < |Collect(os)| && Collect(os)[a] == os[n - 1].value
  {
    var m := |os| - 1;
    var ps := Collect(os[..m]);
    assert Collect(os) == ps + Emitted(os[m]);
    if n < |os| {
      assert os[..m][n - 1] == os[n - 1];
      CollectFind(os[..m], n);
      var w :| 0 <= w < |ps| && ps[w] == os[n - 1].value;
      assert Collect(os)[w] == ps[w];
    } else {
      assert Collect(os)[|ps|] == os[m].value;
    }
  }

  /** Line `n` has a collected record exactly when its outcome is one, and it is that one. */
  lemma CollectComplete(os: seq<Option<RequestRecord>>, n: nat)
    requires Numbered(os)
    requires 1 <= n <= |os|
    ensures os[n - 1].Some? <==> exists a :: 0 <= a < |Collect(os)| && Collect(os)[a].lineNumber == n
    ensures forall a :: 0 <= a < |Collect(os)| && Collect(os)[a].lineNumber == n ==> os[n - 1] == Some(Collect(os)[a])
  {
    if os[n - 1].Some? {
      CollectFind(os, n);
      var w :| 0 <= w < |Collect(os)| && Collect(os)[w] == os[n - 1].value;
      assert Collect(os)[w].lineNumber == n;
    }
    forall a | 0 <= a < |Collect(os)| && Collect(os)[a].lineNumber == n
      ensures os[n - 1] == Some(Collect(os)[a])
    {
      CollectSource(os, a);
    }
  }

  lemma OutcomesNumbered(lines: seq<Option<Value>>, render: int -> string)
    requires forall k :: 0 <= k < |lines| ==> LineShape(lines[k])
    ensures Numbered(Outcomes(lines, render))
  {
  }

  /** Records are in input order: line numbers lie between 1 and the number of
      lines and strictly increase, so there are never more records than lines. */
  lemma RecordsOrdered(lines: seq<Option<Value>>, render: int -> string)
    requires forall k :: 0 <= k < |lines| ==> LineShape(lines[k])
    ensures |RecordsOf(lines, render)| <= |lines|
    ensures LineNumbersWithin(RecordsOf(lines, render), |lines|)
    ensures LineNumbersIncrease(RecordsOf(lines, render))
  {
    OutcomesNumbered(lines, render);
    CollectOrdered(Outcomes(lines, render));
  }

  /** Line `n` has a record exactly when it is kept, and that record is the one
      `RecordAt` builds for it: physical line numbers count every line, skipped or not. */
  lemma RecordsComplete(lines: seq<Option<Value>>, render: int -> string, n: nat)
    requires forall k :: 0 <= k < |lines| ==> LineShape(lines[k])
    requires 1 <= n <= |lines|
    ensures var rs := RecordsOf(lines, render);
      && (Kept(lines[n - 1]) <==> exists a :: 0 <= a < |rs| && rs[a].lineNumber == n)
      && forall a :: 0 <= a < |rs| && rs[a].lineNumber == n ==> RecordAt(n, lines[n - 1], render) == Some(rs[a])
  {
    var os := Outcomes(lines, render);
    OutcomesNumbered(lines, render);
    CollectComplete(os, n);
    assert RecordsOf(lines, render) == Collect(os);
    assert os[n - 1] == RecordAt(n, lines[n - 1], render);
    assert os[n - 1].Some? <==> Kept(lines[n - 1]);
  }

  /** A line the decoder rejected, and an entry that is not a request body, leave
      no record behind. */
  lemma DroppedLinesLeaveNoRecord(lines: seq<Option<Value>>, render: int -> string, n: nat)
    requires forall k :: 0 <= k < |lines| ==> LineShape(lines[k])
    requires 1 <= n <= |lines|
    requires lines[n - 1].None? ||
             (lines[n - 1].value.JObj? && Get(lines[n - 1].value, "type", JNull) != JStr("request body"))
    ensures forall a :: 0 <= a < |RecordsOf(lines, render)| ==> RecordsOf(lines, render)[a].lineNumber != n
  {
    RecordsComplete(lines, render, n);
  }

  /** The body of `analyze_log_file`'s loop for a kept line: the record it appends. */
  method AssembleRecord(lineNum: nat, entry: Value, body: Value, render: int -> string) returns (record: RequestRecord)
    requires entry.JObj? && BodyShape(body) && TimeShape(Get(entry, "time", JInt(0)))
    ensures record == BuildRecord(lineNum, entry, body, render)
  {
    var reqId := Get(entry, "reqId", JStr("unknown-" + NatToString(lineNum)));
    var timestamp := Get(entry, "time", JInt(0));
    var system := Get(body, "system", EmptyArr).items;
    var messages := Get(body, "messages", EmptyArr).items;
    var tools := Get(body, "tools", EmptyArr).items;
    var model := Get(body, "model", JStr(""));
    var readable := if Truthy(timestamp) then Some(render(Millis(timestamp))) else None;
    assert system == SystemList(body) && messages == MessageList(body) && tools == ToolList(body);
    var systemPrompts := FormatSystemPrompts(system);
    var formattedMessages := FormatMessages(messages);
    var skillTool := ExtractSkillTool(tools);
    var stats := Stats(SystemPromptTotalChars(system), |messages|,
                       HasSkillInvocation(messages), HasSkillContentInMessages(messages));
    record := RequestRecord(reqId, timestamp, readable, model, lineNum, systemPrompts,
                            formattedMessages, skillTool, |tools|, stats);
  }

  /** One pass of `analyze_log_file`'s loop: skip a line that did not decode, is
      falsy, is not a request body or has a falsy payload; otherwise build its record. */
  method RecordForLine(lineNum: nat, line: Option<Value>, render: int -> string) returns (r: Option<RequestRecord>)
    requires LineShape(line)
    ensures r == RecordAt(lineNum, line, render)
  {
    r := None;
    if line.Some? && Truthy(line.value) {
      var entry := line.value;
      var requestBody := ExtractRequestBody(entry);
      if requestBody.Some? && Truthy(requestBody.value) {
        var record := AssembleRecord(lineNum, entry, requestBody.value, render);
        r := Some(record);
      }
    }
  }

  /** `analyze_log_file` over pre-decoded lines: the loop that appends one record
      per kept line, then the report with its total. */
  method AnalyzeLog(logFile: string, lines: seq<Option<Value>>, render: int -> string) returns (report: Report)
    requires forall k :: 0 <= k < |lines| ==> LineShape(lines[k])
    ensures report.logFile == logFile
    ensures report.requests == RecordsOf(lines, render)
    ensures report.totalRequests == |report.requests|
  {
    ghost var os := Outcomes(lines, render);
    assert |os| == |lines|;
    var requests: seq<RequestRecord> := [];
    var i := 0;
    while i < |lines|
      invariant 0 <= i <= |lines|
      invariant requests == Collect(os[..i])
    {
      var outcome := RecordForLine(i + 1, lines[i], render);
      assert os[i] == RecordAt(i + 1, lines[i], render);
      CollectStep(os, i);
      if outcome.Some? {
        requests := requests + [outcome.value];
      }
      i := i + 1;
    }
    assert os[..i] == os;
    report := Report(logFile, |requests|, requests);
  }

  // ---------------------------------------------------------------------------
  // Behaviour the stats show on ordinary input

  /** An assistant message that calls the Skill tool, as a decoded request carries it. */
  const SkillCallMessage: Value :=
    JObj(map["role" := JStr("assistant"),
             "content" := JArr([JObj(map["type" := JStr("tool_use"), "name" := JStr("Skill"),
                                         "id" := JStr("toolu_1")])])])

  /** `has_skill_invocation` looks for `tool_name` on the raw blocks, which carry
      `name`: a message whose formatted block is a call of the Skill tool still
      leaves the stat false. */
  lemma SkillCallNotCountedAsInvocation()
    ensures MessageShape(SkillCallMessage)
    ensures MessagesOf([SkillCallMessage])[0].blocks[0] == ToolUseBlock(0, JStr("Skill"), JStr("toolu_1"), EmptyObj)
    ensures !HasSkillInvocation([SkillCallMessage])
  {
  }

  /** A user message whose text is the body of a loaded skill. */
  const SkillContentMessage: Value :=
    JObj(map["role" := JStr("user"),
             "content" := JArr([JObj(map["type" := JStr("text"), "text" := JStr("See SKILL.md for details")])])])

  /** `has_skill_content_in_messages` looks for `has_skill_content` on the raw
      blocks, which only formatted blocks carry: a text block flagged as skill
      content still leaves the stat false. */
  lemma SkillContentNotCountedInStats()
    ensures MessageShape(SkillContentMessage)
    ensures var b := MessagesOf([SkillContentMessage])[0].blocks[0];
      b.TextBlock? && b.hasSkillContent && !b.hasSkillReference
    ensures !HasSkillContentInMessages([SkillContentMessage])
  {
    var text := "See SKILL.md for details";
    var block := JObj(map["type" := JStr("text"), "text" := JStr(text)]);
    assert "has_skill_content" !in block.fields;
    assert ContentItems(SkillContentMessage) == [block];
    assert OccursAt(text, "SKILL.md", 4);
  }

  // ---------------------------------------------------------------------------
  // Worked examples

  /** A one-line log whose line is a request body without `reqId`, with a nonzero
      timestamp and a non-empty payload holding no system prompt, messages or tools,
      yields one record: line 1, the default id, the rendered timestamp, no messages
      and no Skill tool. */
  lemma BareLineReport(line: Option<Value>, time: int, render: int -> string)
    requires line.Some? && line.value.JObj?
    requires "reqId" !in line.value.fields
    requires "type" in line.value.fields && line.value.fields["type"] == JStr("request body")
    requires "time" in line.value.fields && line.value.fields["time"] == JInt(time) && time != 0
    requires "data" in line.value.fields
    requires var body := line.value.fields["data"];
      && body.JObj? && body.fields != map[]
      && "system" !in body.fields && "messages" !in body.fields && "tools" !in body.fields
    ensures LineShape(line)
    ensures var rs := RecordsOf([line], render);
      && |rs| == 1
      && rs[0].lineNumber == 1
      && rs[0].requestId == JStr("unknown-" + NatToString(1))
      && rs[0].timestampReadable == Some(render(time))
      && rs[0].stats.messageCount == 0
      && rs[0].skillTool.None?
  {
    var entry := line.value;
    var body := entry.fields["data"];
    assert ExtractRequestBody(entry) == Some(body);
    assert BodyShape(body);
    assert Kept(line);
    assert Outcomes([line], render) == [RecordAt(1, line, render)];
    CollectSingle(RecordAt(1, line, render));
  }

  /** A request-body line with a timestamp and a model but no system prompts,
      messages or tools. */
  const BareRequestLine: Option<Value> :=
    Some(JObj(map["type" := JStr("request body"), "time" := JInt(1700000000000),
                  "data" := JObj(map["model" := JStr("claude")])]))

  /** Such a line yields one record, numbered 1, with the default request id, a
      rendered timestamp, no messages and no Skill tool. */
  lemma BareRequestReport(render: int -> string)
    ensures LineShape(BareRequestLine)
    ensures var rs := RecordsOf([BareRequestLine], render);
      && |rs| == 1
      && rs[0].lineNumber == 1
      && rs[0].requestId == JStr("unknown-1")
      && rs[0].timestampReadable == Some(render(1700000000000))
      && rs[0].stats.messageCount == 0
      && rs[0].skillTool.None?
  {
    var body := JObj(map["model" := JStr("claude")]);
    assert "model" in body.fields;
    BareLineReport(BareRequestLine, 1700000000000, render);
    assert NatToString(1) == "1";
  }

  /** A request-body line whose `data` is an empty object is falsy and yields no
      record, although the line decoded and is of the right type. */
  lemma EmptyPayloadDropped(render: int -> string)
    ensures var line := Some(JObj(map["type" := JStr("request body"), "data" := EmptyObj]));
      LineShape(line) && RecordsOf([line], render) == []
  {
    var line := Some(JObj(map["type" := JStr("request body"), "data" := EmptyObj]));
    var os := Outcomes([line], render);
    assert !Kept(line);
    assert os[0].None?;
    assert os[..0] == [];
    assert Collect(os) == Collect(os[..0]) + Emitted(os[0]);
  }
}

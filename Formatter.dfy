/**
 * Notification formatting: the emoji and label tables, `truncateText`, the
 * summary/verbose routing of `formatNotificationMessage`, and the line layout
 * of `formatSummaryEvent` and `formatToolEvent`. The clock reading is the
 * `time` parameter; the text cleaning heuristics and the tool-specific body
 * lines are parameters too.
 */
module Formatter {
  import opened Base
  import opened Text
  import opened Json

  // ---------------------------------------------------------------------------
  // Lookup tables
  // ---------------------------------------------------------------------------

  const Gear := "⚙️"
  const Robot := "🤖"
  const Update := "Update"

  /** `TOOL_EMOJIS`; its `default` entry is the gear. */
  const ToolEmojis: map<string, string> := map[
    "Bash" := "🔨", "Edit" := "📝", "Write" := "✍️", "Read" := "📖",
    "Glob" := "🔍", "Grep" := "🔎", "Task" := "🤖", "TaskOutput" := "📤",
    "WebFetch" := "🌐", "WebSearch" := "🔍", "TodoWrite" := "📋",
    "AskUserQuestion" := "❓", "NotebookEdit" := "📓", "default" := Gear]

  /** `STATUS_EMOJIS` */
  const StatusEmojis: map<string, string> := map[
    "success" := "✅", "error" := "❌", "warning" := "⚠️", "info" := "ℹ️",
    "working" := "🔄", "done" := "🎉", "question" := "❓", "stop" := "✅",
    "end" := "🏁", "plan_ready" := "📋", "review" := "🔍", "limit" := "⏱️",
    "feature_complete" := "🎯", "tests_passed" := "✅", "tests_failed" := "❌"]

  /** The labels of `getEventLabel`. */
  const EventLabels: map<string, string> := map[
    "stop" := "Task Complete", "done" := "Task Complete", "end" := "Session Ended",
    "error" := "Error", "question" := "Question", "plan_ready" := "Plan Ready",
    "review" := "Review Complete", "limit" := "Context Limit",
    "feature_complete" := "Feature Complete", "tests_passed" := "Tests Passed",
    "tests_failed" := "Tests Failed"]

  /** The event types `isSummaryEvent` lets through in summary mode. */
  const SummaryEvents: seq<string> := [
    "stop", "done", "error", "question", "plan_ready", "review", "limit", "end",
    "feature_complete", "tests_passed", "tests_failed"]

  /** `getToolEmoji(toolName)`: the table entry, or the gear. */
  function GetToolEmoji(toolName: string): (e: string)
    ensures toolName in ToolEmojis ==> e == ToolEmojis[toolName]
    ensures toolName !in ToolEmojis ==> e == Gear
  {
    if toolName in ToolEmojis then ToolEmojis[toolName] else ToolEmojis["default"]
  }

  /** `getStatusEmoji(status)`: the table entry, or the robot. */
  function GetStatusEmoji(status: string): (e: string)
    ensures e != ""
    ensures e == Robot <==> status !in StatusEmojis
    ensures status in StatusEmojis ==> e == StatusEmojis[status]
  {
    if status in StatusEmojis then StatusEmojis[status] else Robot
  }

  /** `getEventLabel(eventType)`: the label, or `Update`. */
  function GetEventLabel(eventType: string): (l: string)
    ensures l == Update <==> eventType !in EventLabels
    ensures eventType in EventLabels ==> l == EventLabels[eventType]
  {
    if eventType in EventLabels then EventLabels[eventType] else Update
  }

  /** `isSummaryEvent(eventType)` */
  predicate IsSummaryEvent(eventType: string) {
    eventType in SummaryEvents
  }

  /** The summary events are exactly the event types with a label of their own. */
  lemma SummaryEventsAreLabelled(eventType: string)
    ensures IsSummaryEvent(eventType) <==> GetEventLabel(eventType) != Update
  {
    if IsSummaryEvent(eventType) {
      var i :| 0 <= i < |SummaryEvents| && SummaryEvents[i] == eventType;
      assert SummaryEvents[i] in EventLabels;
    }
  }

  /** `truncateText(text, maxLength)`: empty for a falsy value; otherwise trimmed and cut with an ellipsis. */
  function TruncateText(text: Option<Value>, maxLength: nat): (r: string)
    ensures !TruthyOpt(text) ==> r == ""
    ensures TruthyOpt(text) && |Trim(Render(text.value))| <= maxLength ==> r == Trim(Render(text.value))
    ensures maxLength >= 3 ==> |r| <= maxLength
    ensures maxLength >= 3 && TruthyOpt(text) && |Trim(Render(text.value))| > maxLength ==>
      && |r| == maxLength
      && StartsWith(r, Trim(Render(text.value))[..maxLength - 3])
      && EndsWith(r, "...")
  {
    if !TruthyOpt(text) then ""
    else
      var str := Trim(Render(text.value));
      if |str| <= maxLength then str else Slice(str, 0, maxLength - 3) + "..."
  }

  // ---------------------------------------------------------------------------
  // Message layout
  // ---------------------------------------------------------------------------

  /** The clock line that closes every formatted event. */
  function TimeLine(time: string): string {
    "⏰ " + time
  }

  /** A block of content, preceded by the blank line that separates it. */
  function Block(text: string): seq<string> {
    ["", text]
  }

  /** `if (x) { parts.push(''); parts.push(x); }` */
  function BlockIf(present: bool, text: string): seq<string> {
    if present then Block(text) else []
  }

  /** A cleaned summary text is truthy when present and non-empty. */
  predicate Present(s: Option<string>) {
    s.Some? && s.value != ""
  }

  /**
   * The lines `formatSummaryEvent` puts between the header and the footer.
   * `cleanedSummary` and `cleanedError` are what `cleanSummaryText` gives for
   * the summary and the error.
   */
  function SummaryBody(eventType: string, data: Object, cleanedSummary: Option<string>,
                       cleanedError: Option<string>): seq<string>
  {
    var summary := BlockIf(Present(cleanedSummary), if Present(cleanedSummary) then cleanedSummary.value else "");
    match eventType
    case "stop" => summary
    case "done" => summary
    case "review" => summary
    case "end" => summary
    case "feature_complete" =>
      BlockIf(TruthyOpt(Get(data, "featureId")), "Feature: " + TextOr(Get(data, "featureId"), "")) + summary
    case "error" =>
      var err := if Present(cleanedError) then cleanedError.value else TruncateText(Get(data, "error"), 200);
      BlockIf(TruthyOpt(Get(data, "error")), err)
    case "question" => BlockIf(TruthyOpt(Get(data, "question")), TextOr(Get(data, "question"), ""))
    case "plan_ready" => Block("Claude has a plan ready for your approval")
    case "limit" => Block("Session needs to be compacted or restarted")
    case "tests_passed" => BlockIf(TruthyOpt(Get(data, "count")), TextOr(Get(data, "count"), "") + " tests passed")
    case "tests_failed" =>
      BlockIf(TruthyOpt(Get(data, "count")), TextOr(Get(data, "count"), "") + " tests failed") + summary
    case _ => summary
  }

  /** Lines made of content blocks, each preceded by a blank line. */
  predicate Blocks(lines: seq<string>) {
    && |lines| % 2 == 0
    && forall i :: 0 <= i < |lines| && i % 2 == 0 ==> lines[i] == ""
  }

  lemma BlocksAppend(a: seq<string>, b: seq<string>)
    requires Blocks(a) && Blocks(b)
    ensures Blocks(a + b)
  {
    forall i | 0 <= i < |a + b| && i % 2 == 0
      ensures (a + b)[i] == ""
    {
      if i >= |a| {
        assert (a + b)[i] == b[i - |a|];
      }
    }
  }

  lemma BlockIfBlocks(present: bool, text: string)
    ensures Blocks(BlockIf(present, text))
  {
  }

  /** Each content block of a summary follows a blank separator line. */
  lemma SummaryBodyBlocks(eventType: string, data: Object, cleanedSummary: Option<string>, cleanedError: Option<string>)
    ensures Blocks(SummaryBody(eventType, data, cleanedSummary, cleanedError))
  {
    var summary := BlockIf(Present(cleanedSummary), if Present(cleanedSummary) then cleanedSummary.value else "");
    BlockIfBlocks(Present(cleanedSummary), if Present(cleanedSummary) then cleanedSummary.value else "");
    match eventType
    case "stop" =>
    case "done" =>
    case "review" =>
    case "end" =>
    case "feature_complete" =>
      var feature := BlockIf(TruthyOpt(Get(data, "featureId")), "Feature: " + TextOr(Get(data, "featureId"), ""));
      BlockIfBlocks(TruthyOpt(Get(data, "featureId")), "Feature: " + TextOr(Get(data, "featureId"), ""));
      BlocksAppend(feature, summary);
    case "error" =>
    case "question" =>
    case "plan_ready" =>
    case "limit" =>
    case "tests_passed" =>
    case "tests_failed" =>
      var failed := BlockIf(TruthyOpt(Get(data, "count")), TextOr(Get(data, "count"), "") + " tests failed");
      BlockIfBlocks(TruthyOpt(Get(data, "count")), TextOr(Get(data, "count"), "") + " tests failed");
      BlocksAppend(failed, summary);
    case _ =>
  }

  /** The header line of a summary: `emoji project | label`. */
  function SummaryHeader(eventType: string, data: Object): string {
    GetStatusEmoji(eventType) + " " + TextOr(Get(data, "project"), "Claude Code") + " | " + GetEventLabel(eventType)
  }

  /** `formatSummaryEvent(eventType, data)` at clock reading `time`. */
  function FormatSummaryEvent(eventType: string, data: Object, time: string,
                              cleanedSummary: Option<string>, cleanedError: Option<string>): (r: string)
    ensures StartsWith(r, SummaryHeader(eventType, data) + "\n")
    ensures EndsWith(r, "\n\n" + TimeLine(time))
  {
    var body := SummaryBody(eventType, data, cleanedSummary, cleanedError);
    LayoutEnds(SummaryHeader(eventType, data), body, TimeLine(time));
    Join([SummaryHeader(eventType, data)] + body + ["", TimeLine(time)], "\n")
  }

  /** The header of an `AskUserQuestion` tool event. */
  const QuestionHeader := "❓ Question"

  /** The first line of a tool event: `emoji toolName`, or the question marker for `AskUserQuestion`. */
  function ToolHeader(toolName: Value): (h: string)
    ensures toolName == JStr("AskUserQuestion") ==> h == QuestionHeader
    ensures toolName != JStr("AskUserQuestion") ==> h == GetToolEmoji(Render(toolName)) + " " + Render(toolName)
  {
    if toolName == JStr("AskUserQuestion") then QuestionHeader
    else GetToolEmoji(Render(toolName)) + " " + Render(toolName)
  }

  /**
   * `formatToolEvent(toolName, input, result)` at clock reading `time`;
   * `details` are the lines its per-tool branch derives from the input and result.
   */
  function FormatToolEvent(toolName: Value, details: seq<string>, time: string): (r: string)
    ensures StartsWith(r, ToolHeader(toolName) + "\n\n")
    ensures toolName == JStr("AskUserQuestion") ==> StartsWith(r, QuestionHeader + "\n\n")
    ensures toolName != JStr("AskUserQuestion") ==>
      StartsWith(r, GetToolEmoji(Render(toolName)) + " " + Render(toolName) + "\n\n")
    ensures EndsWith(r, "\n\n" + TimeLine(time))
  {
    ToolLayoutEnds(ToolHeader(toolName), details, TimeLine(time));
    Join([ToolHeader(toolName), ""] + details + ["", TimeLine(time)], "\n")
  }

  /** A message laid out as header, body, blank line, footer begins with the header line and ends with the footer. */
  lemma LayoutEnds(header: string, body: seq<string>, footer: string)
    ensures var r := Join([header] + body + ["", footer], "\n");
      && StartsWith(r, header + "\n")
      && EndsWith(r, "\n\n" + footer)
      && r == header + "\n" + Join(body + ["", footer], "\n")
  {
    var rest := body + ["", footer];
    assert [header] + body + ["", footer] == [header] + rest;
    JoinCons(header, rest, "\n");
    if |body| == 0 {
      BareLayoutEnds(header, footer);
    } else {
      BodyLayoutEnds(header, body, footer);
    }
  }

  lemma BareLayoutEnds(header: string, footer: string)
    ensures EndsWith(header + "\n" + Join(["", footer], "\n"), "\n\n" + footer)
  {
    var rest := ["", footer];
    assert rest[1..] == [footer];
    assert Join(rest, "\n") == "\n" + footer;
    assert header + "\n" + ("\n" + footer) == header + ("\n\n" + footer);
  }

  lemma BodyLayoutEnds(header: string, body: seq<string>, footer: string)
    requires |body| > 0
    ensures EndsWith(header + "\n" + Join(body + ["", footer], "\n"), "\n\n" + footer)
  {
    var j := Join(body, "\n");
    assert body + ["", footer] == body + [""] + [footer];
    JoinSnoc(body, "", "\n");
    JoinSnoc(body + [""], footer, "\n");
    EndsAfter(header, Join(body + ["", footer], "\n"), j, footer);
  }

  lemma EndsAfter(header: string, tail: string, j: string, footer: string)
    requires tail == j + "\n" + "" + "\n" + footer
    ensures EndsWith(header + "\n" + tail, "\n\n" + footer)
  {
    assert header + "\n" + tail == (header + "\n" + j) + ("\n\n" + footer);
    EndsWithAppend(header + "\n" + j, "\n\n" + footer);
  }

  /** With a blank line after the header, the message begins with the header and that blank line. */
  lemma ToolLayoutEnds(header: string, details: seq<string>, footer: string)
    ensures var r := Join([header, ""] + details + ["", footer], "\n");
      && StartsWith(r, header + "\n\n")
      && EndsWith(r, "\n\n" + footer)
  {
    var rest := details + ["", footer];
    LayoutEnds(header, [""] + details, footer);
    assert [header] + ([""] + details) + ["", footer] == [header, ""] + details + ["", footer];
    assert [""] + details + ["", footer] == [""] + rest;
    assert ([""] + rest)[1..] == rest;
  }

  // ---------------------------------------------------------------------------
  // formatNotificationMessage
  // ---------------------------------------------------------------------------

  /**
   * `formatNotificationMessage(eventType, data, verboseMode)`: `None` is the
   * deliberate skip (`null`).
   */
  function FormatNotificationMessage(eventType: string, data: Object, verboseMode: bool, time: string,
                                     cleanedSummary: Option<string>, cleanedError: Option<string>,
                                     toolDetails: seq<string>): (r: Option<string>)
    ensures eventType == "tool" ==> (r.Some? <==> verboseMode && TruthyOpt(Get(data, "toolName")))
    ensures eventType != "tool" && verboseMode ==> r.Some?
    ensures eventType != "tool" && !verboseMode ==> (r.Some? <==> IsSummaryEvent(eventType))
    ensures r.Some? && verboseMode && TruthyOpt(Get(data, "toolName")) ==>
      r.value == FormatToolEvent(data["toolName"], toolDetails, time)
    ensures r.Some? && !TruthyOpt(Get(data, "toolName")) ==>
      r.value == FormatSummaryEvent(eventType, data, time, cleanedSummary, cleanedError)
    ensures r.Some? ==> EndsWith(r.value, "\n\n" + TimeLine(time))
  {
    var hasTool := TruthyOpt(Get(data, "toolName"));
    if eventType == "tool" then
      if !verboseMode then None
      else if hasTool then Some(FormatToolEvent(data["toolName"], toolDetails, time))
      else None
    else if verboseMode then
      if hasTool then Some(FormatToolEvent(data["toolName"], toolDetails, time))
      else Some(FormatSummaryEvent(eventType, data, time, cleanedSummary, cleanedError))
    else if IsSummaryEvent(eventType) then Some(FormatSummaryEvent(eventType, data, time, cleanedSummary, cleanedError))
    else None
  }
}

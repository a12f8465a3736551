/**
 * The lifecycle notification hook: a keyword classifier over the session
 * transcript, the table of notification kinds, and the hook's decision to
 * send (or not) one notification and, at session end, a session update.
 *
 * The transcript is its file content (`None` when no path is given, the file
 * does not exist or cannot be read); the project name, derived from the
 * working directory, is a parameter; the two HTTP posts become the result.
 */
module NotifyHook {
  import opened Base
  import opened Text
  import opened Json
  import opened Config
  import opened Utils

  // ---------------------------------------------------------------------------
  // analyzeTranscript
  // ---------------------------------------------------------------------------

  /** The classification: a notification kind and an optional detail text. */
  datatype Analysis = Analysis(kind: string, details: Option<string>)

  const LimitWords: seq<string> := ["context limit", "token limit", "conversation too long"]
  const ErrorWords: seq<string> := ["api error", "401", "authentication", "unauthorized"]
  const ReadOnlyWords: seq<string> := ["read", "grep", "glob", "search", "find", "list"]
  const WriteWords: seq<string> := ["write", "edit", "bash", "create", "delete", "modify"]

  /** `patterns.some(p => text.includes(p))` */
  predicate ContainsAny(text: string, patterns: seq<string>) {
    exists i :: 0 <= i < |patterns| && Contains(text, patterns[i])
  }

  /** `lines.filter(l => l.trim())` */
  function NonBlank(lines: seq<string>): (r: seq<string>)
    ensures |r| <= |lines|
    ensures forall i :: 0 <= i < |r| ==> Trim(r[i]) != ""
    ensures forall l :: l in lines && Trim(l) != "" ==> l in r
    ensures forall l :: l in r ==> l in lines
  {
    if |lines| == 0 then []
    else (if Trim(lines[0]) != "" then [lines[0]] else []) + NonBlank(lines[1..])
  }

  /** The filter keeps order and multiplicity: it distributes over concatenation. */
  lemma {:induction false} NonBlankAppend(a: seq<string>, b: seq<string>)
    ensures NonBlank(a + b) == NonBlank(a) + NonBlank(b)
  {
    if |a| == 0 {
      assert a + b == b;
    } else {
      NonBlankAppend(a[1..], b);
      NonBlankAppendStep(a, b);
    }
  }

  /** One step of `NonBlankAppend`: the first line of `a` is kept or dropped alike on both sides. */
  lemma NonBlankAppendStep(a: seq<string>, b: seq<string>)
    requires |a| > 0
    requires NonBlank(a[1..] + b) == NonBlank(a[1..]) + NonBlank(b)
    ensures NonBlank(a + b) == NonBlank(a) + NonBlank(b)
  {
    var head := if Trim(a[0]) != "" then [a[0]] else [];
    LinesTail(a, b);
    NonBlankCons(a);
    NonBlankCons(a + b);
    LinesAssoc(head, NonBlank(a[1..]), NonBlank(b));
  }

  lemma NonBlankCons(a: seq<string>)
    requires |a| > 0
    ensures NonBlank(a) == (if Trim(a[0]) != "" then [a[0]] else []) + NonBlank(a[1..])
  {
  }

  lemma LinesAssoc(x: seq<string>, y: seq<string>, z: seq<string>)
    ensures x + (y + z) == (x + y) + z
  {
  }

  lemma LinesTail(a: seq<string>, b: seq<string>)
    requires |a| > 0
    ensures (a + b)[0] == a[0] && (a + b)[1..] == a[1..] + b
  {
  }

  /** `lines.slice(-n)` for a positive `n`: the last `n` elements, or all of them. */
  function LastN(lines: seq<string>, n: nat): (r: seq<string>)
    ensures |r| == Min(n, |lines|)
    ensures r == lines[|lines| - |r|..]
  {
    if |lines| <= n then lines else lines[|lines| - n..]
  }

  /** The transcript's non-blank lines. */
  function TranscriptLines(content: string): seq<string> {
    NonBlank(Split(content, '\n'))
  }

  /** The text the classifier inspects: the last 15 non-blank lines, lower-cased. */
  function RecentText(content: string): string {
    ToLower(Join(LastN(TranscriptLines(content), 15), "\n"))
  }

  /** The kind the keyword checks give for the inspected text, in their priority order. */
  function Classify(recent: string): (kind: string)
    ensures ContainsAny(recent, LimitWords) ==> kind == "limit"
    ensures !ContainsAny(recent, LimitWords) && ContainsAny(recent, ErrorWords) ==> kind == "error"
    ensures kind == "review" <==>
      !ContainsAny(recent, LimitWords) && !ContainsAny(recent, ErrorWords)
      && ContainsAny(recent, ReadOnlyWords) && !ContainsAny(recent, WriteWords)
    ensures kind == "stop" <==>
      !ContainsAny(recent, LimitWords) && !ContainsAny(recent, ErrorWords)
      && !(ContainsAny(recent, ReadOnlyWords) && !ContainsAny(recent, WriteWords))
  {
    if ContainsAny(recent, LimitWords) then "limit"
    else if ContainsAny(recent, ErrorWords) then "error"
    else if ContainsAny(recent, ReadOnlyWords) && !ContainsAny(recent, WriteWords) then "review"
    else "stop"
  }

  /** `analyzeTranscript(transcriptPath)` over the transcript's content. */
  function AnalyzeTranscript(content: Option<string>): (a: Analysis)
    ensures content.None? ==> a == Analysis("stop", None)
    ensures content.Some? ==> a.kind == Classify(RecentText(content.value))
    ensures content.Some? && a.kind == "limit" ==> a.details == Some("Context limit reached")
    ensures content.Some? && a.kind == "error" ==> a.details == Some("API authentication error")
    ensures content.Some? && a.kind == "review" ==> a.details == Some("Read-only analysis completed")
    ensures content.Some? && a.kind == "stop" ==>
      a.details == Some(Truncate(Join(LastN(TranscriptLines(content.value), 3), "\n"), 200))
    ensures a.details.Some? ==> |a.details.value| <= 200
  {
    match content
    case None => Analysis("stop", None)
    case Some(text) =>
      var lines := TranscriptLines(text);
      var recentText := RecentText(text);
      if ContainsAny(recentText, LimitWords) then Analysis("limit", Some("Context limit reached"))
      else if ContainsAny(recentText, ErrorWords) then Analysis("error", Some("API authentication error"))
      else if ContainsAny(recentText, ReadOnlyWords) && !ContainsAny(recentText, WriteWords) then
        Analysis("review", Some("Read-only analysis completed"))
      else
        var lastLines := Join(LastN(lines, 3), "\n");
        Analysis("stop", Some(Truncate(lastLines, 200)))
  }

  /** Only the last fifteen non-blank lines matter: transcripts that agree on them are classified alike. */
  lemma OnlyRecentLinesMatter(a: string, b: string)
    requires LastN(TranscriptLines(a), 15) == LastN(TranscriptLines(b), 15)
    ensures AnalyzeTranscript(Some(a)).kind == AnalyzeTranscript(Some(b)).kind
  {
    assert RecentText(a) == RecentText(b);
  }

  /** Blank lines and older lines do not count: adding them in front of the recent ones changes nothing. */
  lemma BlankLinesIgnored(content: string, blank: string)
    requires Trim(blank) == ""
    requires '\n' !in blank
    ensures TranscriptLines(blank + "\n" + content) == TranscriptLines(content)
  {
    var s := blank + "\n" + content;
    assert IndexOf(s, '\n') == Some(|blank|) by {
      assert s[|blank|] == '\n';
      assert s[..|blank|] == blank;
    }
    assert s[..|blank|] == blank;
    assert s[|blank| + 1..] == content;
    assert Split(s, '\n') == [blank] + Split(content, '\n');
    assert ([blank] + Split(content, '\n'))[1..] == Split(content, '\n');
  }

  // ---------------------------------------------------------------------------
  // NOTIFICATION_TYPES and main
  // ---------------------------------------------------------------------------

  /** One entry of `NOTIFICATION_TYPES`. */
  datatype NotificationKind = NotificationKind(emoji: string, title: string, description: Option<string>)

  /** `NOTIFICATION_TYPES`; the emoji are kept exactly as the source file spells them. */
  const NotificationTypes: map<string, NotificationKind> := map[
    "stop" := NotificationKind("\U{201A}\U{FA}\U{D6}", "Task Complete", None),
    "end" := NotificationKind("\U{F8FF}\U{FC}\U{E8}\U{C5}", "Session Ended", None),
    "plan_ready" := NotificationKind("\U{F8FF}\U{FC}\U{EC}\U{E3}", "Plan Ready",
      Some("Claude has a plan ready for your approval")),
    "question" := NotificationKind("\U{201A}\U{F9}\U{EC}", "Question", None),
    "review" := NotificationKind("\U{F8FF}\U{FC}\U{EE}\U{E7}", "Review Complete", None),
    "limit" := NotificationKind("\U{201A}\U{E8}\U{B1}\U{D4}\U{220F}\U{E8}", "Session Limit Reached", None),
    "error" := NotificationKind("\U{F8FF}\U{FC}\U{EE}\U{A5}", "API Error", None)]

  const ProjectMarker := "\U{F8FF}\U{FC}\U{EC}\U{C5} Project: `"
  const PathMarker := "\n\U{F8FF}\U{FC}\U{EC}\U{C7} Path: `"

  /** `NOTIFICATION_TYPES[type] || NOTIFICATION_TYPES.stop` */
  function KindFor(notifType: string): (k: NotificationKind)
    ensures notifType in NotificationTypes ==> k == NotificationTypes[notifType]
    ensures notifType !in NotificationTypes ==> k == NotificationTypes["stop"]
  {
    if notifType in NotificationTypes then NotificationTypes[notifType] else NotificationTypes["stop"]
  }

  /** `config.notifications?.[flag]` */
  function NotificationFlag(config: Object, flag: string): Option<Value> {
    match Get(config, "notifications")
    case Some(JObj(fields)) => Get(fields, flag)
    case _ => None
  }

  /** The body posted to `/api/notify`. */
  datatype Notification = Notification(message: string, status: string, project: string)

  /** What one run of the hook sends: at most one notification, and the session update. */
  datatype HookResult = HookResult(notification: Option<Notification>, sessionEnded: bool)

  /** The hook sends something: the configuration is valid and the event's notification flag allows it. */
  predicate Enabled(eventType: string, file: ConfigFile) {
    var config := LoadConfig(file);
    && ValidateConfig(file).valid
    && (eventType == "stop" ==> TruthyOpt(NotificationFlag(config, "on_stop")))
    && (eventType == "end" ==> TruthyOpt(NotificationFlag(config, "on_session_end")))
  }

  /** The message's opening: the kind's emoji and title, then the project line. */
  function MessageHead(kind: NotificationKind, projectName: string): string {
    kind.emoji + " *" + kind.title + "*\n\n" + ProjectMarker + projectName + "`"
  }

  /** The message `main` accumulates for a kind, a project, a working directory and a detail text. */
  method ComposeMessage(kind: NotificationKind, projectName: string, cwdText: string, details: Option<string>)
    returns (message: string)
    ensures StartsWith(message, MessageHead(kind, projectName) + PathMarker + cwdText + "`")
    ensures details.Some? && details.value != "" ==> EndsWith(message, "\n\n```\n" + details.value + "\n```")
    ensures kind.description.None? && (details.None? || details.value == "") ==>
      message == MessageHead(kind, projectName) + PathMarker + cwdText + "`"
  {
    message := kind.emoji + " *" + kind.title + "*\n\n";
    message := message + ProjectMarker + projectName + "`";
    message := message + PathMarker + cwdText + "`";
    ghost var head := message;
    assert head == MessageHead(kind, projectName) + PathMarker + cwdText + "`";
    if kind.description.Some? && kind.description.value != "" {
      message := message + "\n\n" + kind.description.value;
    }
    ghost var beforeDetails := message;
    assert StartsWith(beforeDetails, head);
    if details.Some? && details.value != "" {
      message := message + "\n\n```\n" + details.value + "\n```";
      assert message[..|head|] == beforeDetails[..|head|];
    }
  }

  /**
   * `main()` of the hook for the event named on the command line; `input` is
   * the hook's JSON input, `projectName` the base name of its working
   * directory, `transcript` the transcript content.
   */
  method HookMain(eventType: string, file: ConfigFile, input: Object, projectName: string,
                  transcript: Option<string>) returns (result: HookResult)
    ensures result.notification.Some? <==> Enabled(eventType, file)
    ensures result.sessionEnded <==> Enabled(eventType, file) && eventType == "end"
    ensures result.notification.Some? ==>
      var n := result.notification.value;
      var notifType := if eventType == "stop" then AnalyzeTranscript(transcript).kind else eventType;
      var details := if eventType == "stop" then AnalyzeTranscript(transcript).details else None;
      && n.status == notifType
      && n.project == projectName
      && StartsWith(n.message, MessageHead(KindFor(notifType), projectName)
                               + PathMarker + TextOr(Get(input, "cwd"), "unknown") + "`")
      && (details.Some? && details.value != "" ==> EndsWith(n.message, "\n\n```\n" + details.value + "\n```"))
      && (KindFor(notifType).description.None? && (details.None? || details.value == "") ==>
            n.message == MessageHead(KindFor(notifType), projectName)
                         + PathMarker + TextOr(Get(input, "cwd"), "unknown") + "`")
  {
    var config := LoadConfig(file);
    if !ValidateConfig(file).valid {
      return HookResult(None, false);
    }
    if eventType == "stop" && !TruthyOpt(NotificationFlag(config, "on_stop")) {
      return HookResult(None, false);
    }
    if eventType == "end" && !TruthyOpt(NotificationFlag(config, "on_session_end")) {
      return HookResult(None, false);
    }
    var notifType := eventType;
    var details: Option<string> := None;
    if eventType == "stop" {
      var analysis := AnalyzeTranscript(transcript);
      notifType := analysis.kind;
      details := analysis.details;
    }
    var message := ComposeMessage(KindFor(notifType), projectName, TextOr(Get(input, "cwd"), "unknown"), details);
    result := HookResult(Some(Notification(message, notifType, projectName)), eventType == "end");
  }

  /** With the default configuration's credentials missing, the hook never sends anything. */
  lemma MissingConfigSendsNothing(eventType: string)
    ensures !Enabled(eventType, Missing)
  {
    MissingFileInvalid();
  }

  /** An event type without its own entry is announced like a stop. */
  lemma UnknownKindIsStop(notifType: string)
    requires notifType !in {"stop", "end", "plan_ready", "question", "review", "limit", "error"}
    ensures KindFor(notifType) == KindFor("stop")
  {
    assert NotificationTypes.Keys == {"stop", "end", "plan_ready", "question", "review", "limit", "error"};
  }
}

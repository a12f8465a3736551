/**
 * The pure side of the background worker: the fixed reply texts, the
 * command arguments it interprets (`parseInt`, the verbose switch, the tail
 * length), the `/status` report, the working-directory fallback chain, the
 * HTTP routing table and the startup guard. The worker class applies these.
 */
module WorkerSpec {
  import opened Base
  import opened Text
  import opened Json
  import opened Config
  import Utils

  const DefaultTmuxSession := "claude-telegram"
  const DefaultClaudeCmd := "claude --dangerously-skip-permissions"

  /** `tmuxSend` injects at most this many characters. */
  const SendLimit := 4000
  /** `/tmux_tail` without a usable number asks for this many lines. */
  const TailDefault := 50
  /** `/tmux_tail` shows at most this many trailing characters of the capture. */
  const TailShown := 3000
  /** `/send` echoes at most this many characters of the task. */
  const TaskPreview := 120
  /** `/api/ask` waits this many milliseconds unless the body says otherwise. */
  const DefaultAskTimeout := 300000

  // ---------------------------------------------------------------------------
  // Settings read from the configuration
  // ---------------------------------------------------------------------------

  /** `getTmuxSession()`: the configured session name when it is truthy, else the default. */
  function TmuxSession(config: Object): (name: string)
    ensures !TruthyOpt(Get(config, "tmux_session")) ==> name == DefaultTmuxSession
    ensures "tmux_session" in config && config["tmux_session"].JStr? && config["tmux_session"].s != "" ==> name == config["tmux_session"].s
  {
    TextOr(Get(config, "tmux_session"), DefaultTmuxSession)
  }

  /** `getClaudeCmd()`: the configured command when it is truthy, else the default. */
  function ClaudeCmd(config: Object): (command: string)
    ensures !TruthyOpt(Get(config, "claude_cmd")) ==> command == DefaultClaudeCmd
    ensures "claude_cmd" in config && config["claude_cmd"].JStr? && config["claude_cmd"].s != "" ==> command == config["claude_cmd"].s
  {
    TextOr(Get(config, "claude_cmd"), DefaultClaudeCmd)
  }

  /**
   * `getWorkdir()`: the configured directory wins, then the directory the
   * session hook reported, then the worker's own working directory.
   */
  function GetWorkdir(config: Object, sessionInfo: Object, processCwd: string): (w: string)
    ensures TruthyOpt(Get(config, "workdir")) ==> w == Render(config["workdir"])
    ensures !TruthyOpt(Get(config, "workdir")) && TruthyOpt(Get(sessionInfo, "cwd")) ==> w == Render(sessionInfo["cwd"])
    ensures !TruthyOpt(Get(config, "workdir")) && !TruthyOpt(Get(sessionInfo, "cwd")) ==> w == processCwd
  {
    if TruthyOpt(Get(config, "workdir")) then Render(config["workdir"])
    else if TruthyOpt(Get(sessionInfo, "cwd")) then Render(sessionInfo["cwd"])
    else processCwd
  }

  /** After `/cd <path>` the working directory is that path, whatever the session reported. */
  lemma CdOverridesWorkdir(config: Object, sessionInfo: Object, processCwd: string, path: string)
    requires path != ""
    ensures GetWorkdir(config["workdir" := JStr(path)], sessionInfo, processCwd) == path
  {
  }

  /** Without a configured directory, the directory reported by the session hook is used. */
  lemma SessionCwdFallback(config: Object, sessionInfo: Object, processCwd: string, cwd: string)
    requires "workdir" !in config && cwd != ""
    ensures GetWorkdir(config, sessionInfo["cwd" := JStr(cwd)], processCwd) == cwd
  {
  }

  /** `main()` refuses to start unless the loaded configuration has a bot token and a chat id. */
  predicate StartupAllowed(file: ConfigFile) {
    var config := LoadConfig(file);
    TruthyOpt(Get(config, "bot_token")) && TruthyOpt(Get(config, "chat_id"))
  }

  /** The worker starts exactly when `validateConfig` reports the configuration valid. */
  lemma StartupMatchesValidation(file: ConfigFile)
    ensures StartupAllowed(file) <==> ValidateConfig(file).valid
    ensures file.Missing? ==> !StartupAllowed(file)
  {
    var v := ValidateConfig(file);
    if !StartupAllowed(file) {
      assert BotTokenRequired in v.errors || ChatIdRequired in v.errors;
    }
  }

  // ---------------------------------------------------------------------------
  // parseInt(text, 10)
  // ---------------------------------------------------------------------------

  predicate IsDigit(c: char) { '0' <= c <= '9' }

  predicate AllDigits(s: string) {
    forall i :: 0 <= i < |s| ==> IsDigit(s[i])
  }

  function DigitValue(c: char): nat
    requires IsDigit(c)
  {
    c as int - '0' as int
  }

  /** The number a run of decimal digits denotes. */
  function DigitsValue(d: string): nat
    requires AllDigits(d)
  {
    if |d| == 0 then 0 else DigitsValue(d[..|d| - 1]) * 10 + DigitValue(d[|d| - 1])
  }

  /** The length of the run of digits at the start of `s`. */
  function DigitRun(s: string): (k: nat)
    ensures k <= |s| && AllDigits(s[..k])
    ensures k == |s| || !IsDigit(s[k])
  {
    if |s| > 0 && IsDigit(s[0]) then
      var k := DigitRun(s[1..]) + 1;
      assert forall i :: 1 <= i < k ==> s[..k][i] == s[1..][..k - 1][i - 1];
      k
    else 0
  }

  /** The digits at the start of `body`, read as a number; `None` when there are none. */
  function LeadingNumber(body: string): Option<int> {
    var k := DigitRun(body);
    if k == 0 then None else Some(DigitsValue(body[..k]))
  }

  /**
   * `parseInt(s, 10)`: leading white space is skipped, one sign is allowed,
   * then the longest run of digits is read; no digit at all is `NaN` (`None`).
   */
  function ParseInt(s: string): Option<int> {
    var t := TrimStart(s);
    if |t| > 0 && t[0] == '-' then
      match LeadingNumber(t[1..])
      case Some(v) => Some(-v)
      case None => None
    else if |t| > 0 && t[0] == '+' then LeadingNumber(t[1..])
    else LeadingNumber(t)
  }

  lemma DigitRoundTrip(d: nat)
    requires d < 10
    ensures IsDigit(DigitChar(d)) && DigitValue(DigitChar(d)) == d
  {
    if d == 0 { } else if d == 1 { } else if d == 2 { } else if d == 3 { } else if d == 4 { }
    else if d == 5 { } else if d == 6 { } else if d == 7 { } else if d == 8 { } else { }
  }

  /** Reading back the decimal rendering of a natural number gives the number. */
  lemma {:induction false} DigitsRoundTrip(n: nat)
    ensures AllDigits(NatToString(n))
    ensures DigitsValue(NatToString(n)) == n
  {
    var s := NatToString(n);
    if n < 10 {
      DigitRoundTrip(n);
      assert s[..0] == "";
    } else {
      DigitsRoundTrip(n / 10);
      DigitRoundTrip(n % 10);
      assert s[..|s| - 1] == NatToString(n / 10);
    }
  }

  /** A whole run of digits is read entirely. */
  lemma LeadingAll(s: string)
    requires |s| > 0 && AllDigits(s)
    ensures LeadingNumber(s) == Some(DigitsValue(s) as int)
  {
    DigitRunAll(s);
    assert s[..|s|] == s;
  }

  /** A run of digits parses to the number it denotes. */
  lemma ParseDigits(s: string)
    requires |s| > 0 && AllDigits(s)
    ensures ParseInt(s) == Some(DigitsValue(s) as int)
  {
    NoLeadingSpace(s);
    LeadingAll(s);
  }

  /** A minus sign before a run of digits negates it. */
  lemma ParseNegated(s: string, v: int)
    requires |s| > 0 && AllDigits(s) && v == DigitsValue(s)
    ensures ParseInt("-" + s) == Some(-v)
  {
    LeadingAll(s);
    var m := "-" + s;
    assert m[0] == '-' && m[1..] == s;
    NoLeadingSpace(m);
    ParseMinus(m, s, v);
  }

  /** With no white space in front, `parseInt` negates the number after a minus sign. */
  lemma ParseMinus(m: string, s: string, v: int)
    requires |m| > 0 && m[0] == '-' && m[1..] == s && TrimStart(m) == m
    requires LeadingNumber(s) == Some(v)
    ensures ParseInt(m) == Some(-v)
  {
    var t := TrimStart(m);
    assert |t| > 0 && t[0] == '-';
    assert LeadingNumber(t[1..]) == Some(v);
  }

  lemma NoLeadingSpace(s: string)
    requires |s| > 0 && (s[0] == '-' || IsDigit(s[0]))
    ensures TrimStart(s) == s
  {
    var c := s[0];
    assert c as int < 0xA0;
    assert !IsSpace(c);
  }

  /** `parseInt(String(n), 10) === n`: parsing inverts the decimal rendering. */
  lemma ParseIntRoundTrip(n: nat)
    ensures ParseInt(NatToString(n)) == Some(n as int)
  {
    DigitsRoundTrip(n);
    ParseDigits(NatToString(n));
  }

  /** The same holds for negative numbers: `parseInt(String(-n), 10) === -n`. */
  lemma ParseNegativeRoundTrip(n: nat)
    ensures ParseInt("-" + NatToString(n)) == Some(-(n as int))
  {
    DigitsRoundTrip(n);
    ParseNegated(NatToString(n), n);
  }

  lemma {:induction false} DigitRunAll(s: string)
    requires AllDigits(s)
    ensures DigitRun(s) == |s|
  {
    if |s| > 0 {
      DigitRunAll(s[1..]);
    }
  }

  /** Text that does not start (after white space and a sign) with a digit is `NaN`. */
  lemma ParseIntRejects(s: string)
    requires |s| > 0 && !IsSpace(s[0]) && !IsDigit(s[0]) && s[0] != '-' && s[0] != '+'
    ensures ParseInt(s) == None
  {
    assert TrimStart(s) == s;
  }

  // ---------------------------------------------------------------------------
  // /tmux_tail
  // ---------------------------------------------------------------------------

  /** `parseInt(rest, 10) || 50`: `NaN` and zero both fall back to the default. */
  function TailRequest(rest: string): (n: int)
    ensures n != 0
    ensures ParseInt(rest).None? ==> n == TailDefault
    ensures ParseInt(rest).Some? && ParseInt(rest).value != 0 ==> n == ParseInt(rest).value
  {
    match ParseInt(rest)
    case Some(v) => if v != 0 then v else TailDefault
    case None => TailDefault
  }

  /** `Math.max(10, Math.min(500, lines))`: the capture depth actually requested. */
  function TailDepth(lines: int): (n: int)
    ensures 10 <= n <= 500
    ensures 10 <= lines <= 500 ==> n == lines
    ensures lines < 10 ==> n == 10
    ensures lines > 500 ==> n == 500
  {
    Max(10, Min(500, lines))
  }

  /**
   * `/tmux_tail <n>` with a number: zero means the default, anything else is
   * clamped into 10..500.
   */
  lemma TailCommandDepth(n: nat)
    ensures TailDepth(TailRequest(NatToString(n))) == if n == 0 then TailDefault else Max(10, Min(500, n))
  {
    ParseIntRoundTrip(n);
    assert TailRequest(NatToString(n)) == if n == 0 then TailDefault else n;
  }

  /** The part of the capture `/tmux_tail` shows: `output.slice(-3000)`. */
  function TailShownPart(output: string): (r: string)
    ensures EndsWith(output, r)
    ensures |r| == Min(|output|, TailShown)
  {
    Slice(output, -TailShown, |output|)
  }

  // ---------------------------------------------------------------------------
  // /verbose
  // ---------------------------------------------------------------------------

  predicate SwitchesOn(arg: string) { arg == "on" || arg == "true" }
  predicate SwitchesOff(arg: string) { arg == "off" || arg == "false" }
  predicate AsksMode(arg: string) { arg == "" || arg == "status" }

  /** The verbose flag after `/verbose <arg>` (the argument already lower-cased). */
  function NextVerbose(current: bool, arg: string): (v: bool)
    ensures SwitchesOn(arg) ==> v
    ensures SwitchesOff(arg) ==> !v
    ensures AsksMode(arg) ==> v == current
    ensures !SwitchesOn(arg) && !SwitchesOff(arg) && !AsksMode(arg) ==> v == !current
  {
    if SwitchesOn(arg) then true
    else if SwitchesOff(arg) then false
    else if AsksMode(arg) then current
    else !current
  }

  /** Only asking for the mode leaves the flag and the configuration file alone. */
  predicate ChangesVerbose(arg: string) { !AsksMode(arg) }

  /** Any other argument toggles, so the same unknown argument twice restores the mode. */
  lemma ToggleTwice(current: bool, arg: string)
    requires !SwitchesOn(arg) && !SwitchesOff(arg) && !AsksMode(arg)
    ensures NextVerbose(NextVerbose(current, arg), arg) == current
  {
  }

  /** Switching on or off is idempotent, and the last explicit switch decides. */
  lemma SwitchesSettle(current: bool, a: string, b: string)
    requires SwitchesOn(a) || SwitchesOff(a)
    requires SwitchesOn(b) || SwitchesOff(b)
    ensures NextVerbose(NextVerbose(current, a), b) == NextVerbose(current, b)
    ensures NextVerbose(NextVerbose(current, a), a) == NextVerbose(current, a)
  {
  }

  function ModeName(verbose: bool): string {
    if verbose then "📢 Verbose" else "📋 Summary"
  }

  const VerboseOnText :=
    "📢 *Verbose Mode: ON*\n\nAll tool events will be sent (formatted nicely):\n🔨 Bash commands\n📝 File edits\n📖 File reads\n🤖 Agent spawns"
  const SummaryOnText :=
    "📋 *Summary Mode: ON*\n\nOnly important events will be sent:\n✅ Task complete\n❌ Errors\n❓ Questions\n📋 Plan ready"

  const VerboseUsage := "Use:\n/verbose on - Enable verbose mode\n/verbose off - Enable summary mode"

  /** The reply to `/verbose <arg>`, given the flag before the command. */
  function VerboseReply(current: bool, arg: string): (r: string)
    ensures AsksMode(arg) ==> StartsWith(r, "*Current Mode:* " + ModeName(current) + "\n\n")
    ensures !SwitchesOn(arg) && !SwitchesOff(arg) && !AsksMode(arg) ==> r == "*Mode changed to:* " + ModeName(NextVerbose(current, arg))
  {
    if SwitchesOn(arg) then VerboseOnText
    else if SwitchesOff(arg) then SummaryOnText
    else if AsksMode(arg) then
      var head := "*Current Mode:* " + ModeName(current) + "\n\n";
      StartsWithAppend(head, VerboseUsage);
      head + VerboseUsage
    else "*Mode changed to:* " + ModeName(NextVerbose(current, arg))
  }

  lemma StartsWithAppend(a: string, b: string)
    ensures StartsWith(a + b, a)
  {
    assert (a + b)[..|a|] == a;
  }

  /** After `/verbose on`, asking for the mode reports verbose; after `/verbose off`, summary. */
  lemma SwitchThenAsk(current: bool)
    ensures StartsWith(VerboseReply(NextVerbose(current, "on"), "status"), "*Current Mode:* " + ModeName(true))
    ensures StartsWith(VerboseReply(NextVerbose(current, "off"), ""), "*Current Mode:* " + ModeName(false))
  {
    assert SwitchesOn("on") && SwitchesOff("off");
    ReportsMode(true, "status");
    ReportsMode(false, "");
  }

  /** Asking for the mode names the current mode. */
  lemma ReportsMode(current: bool, arg: string)
    requires AsksMode(arg)
    ensures StartsWith(VerboseReply(current, arg), "*Current Mode:* " + ModeName(current))
  {
    var p := "*Current Mode:* " + ModeName(current);
    PrefixOfPrefix(VerboseReply(current, arg), p, "\n\n");
  }

  lemma PrefixOfPrefix(r: string, p: string, q: string)
    requires StartsWith(r, p + q)
    ensures StartsWith(r, p)
  {
    assert r[..|p|] == (r[..|p + q|])[..|p|];
  }

  // ---------------------------------------------------------------------------
  // Fixed replies
  // ---------------------------------------------------------------------------

  const UnauthorizedText := "❌ Unauthorized. Your user ID is not in the allowed list."
  const NothingToCancelText := "No pending questions to cancel."
  const CancelledText := "✅ All pending questions cancelled."
  const TmuxStartedText := "✅ Claude tmux session started!\nUse /send <prompt> to send commands."
  const TmuxStoppedText := "✅ Tmux session stopped."
  const NoOutputText := "No output captured."
  const TypeResponseText := "📝 Please type your response:"
  /** Follows the question emoji in an `/api/ask` message. */
  const AskHeading := " *Claude needs your input*\n\n"

  const HelpLines: seq<string> := [
    "*Claude Code Telegram Bot* 🤖",
    "",
    "*Session Commands:*",
    "/status - Show current status",
    "/help - Show this help",
    "/cancel - Cancel pending question",
    "/verbose - Toggle notification mode",
    "",
    "*Claude Control (tmux):*",
    "/cd <path> - Set working directory",
    "/tmux\\_start - Start Claude in tmux session",
    "/tmux\\_stop - Stop tmux session",
    "/tmux\\_tail [n] - Show last n lines (default 50)",
    "/send <prompt> - Send prompt to Claude",
    "",
    "*Notification Modes:*",
    "📢 Verbose: All events formatted nicely",
    "📋 Summary: Only important events (default)"]

  function HelpText(): string {
    Join(HelpLines, "\n")
  }

  function ReceivedText(text: string): string {
    "✅ Response received: \"" + text + "\""
  }

  function InfoText(message: string): string {
    "ℹ️ " + message
  }

  function ErrorText(message: string): string {
    "❌ Error: " + message
  }

  function TailText(lines: int, output: string): string {
    "*Last " + IntToString(lines) + " lines:*\n```\n" + TailShownPart(output) + "\n```"
  }

  const CdUsageHead := "Current workdir: `"
  const CdUsageTail := "`\n\nUsage: /cd <path>"

  function CdUsageText(workdir: string): string {
    CdUsageHead + workdir + CdUsageTail
  }

  function CdDoneText(path: string): string {
    "✅ Workdir changed to:\n`" + path + "`"
  }

  const SendUsageHead := "Usage: /send <prompt>\n\nExample: /send Fix the bug in auth.js\n\nCurrent workdir: `"
  const SendUsageTail := "`\nUse /cd <path> to change directory first.\n\n_Note: Claude will read CLAUDE.md first before executing._"

  function SendUsageText(workdir: string): string {
    SendUsageHead + workdir + SendUsageTail
  }

  const PromptHead := "First, read the CLAUDE.md file in "
  const PromptMid := " if it exists to understand the project context. Then execute this task: "

  /** The prompt `/send` injects: read the project notes in the working directory, then do the task. */
  function FullPrompt(workdir: string, task: string): (p: string)
    ensures EndsWith(p, task)
    ensures |p| > |task|
  {
    var head := PromptHead + workdir + PromptMid;
    assert (head + task)[|head + task| - |task|..] == task;
    head + task
  }

  /** `rest.slice(0, 120)` followed by an ellipsis when the task is longer. */
  function Preview(task: string): (r: string)
    ensures |task| <= TaskPreview ==> r == task
    ensures |task| > TaskPreview ==> r == task[..TaskPreview] + "..." && |r| == TaskPreview + 3
  {
    Slice(task, 0, TaskPreview) + (if |task| > TaskPreview then "..." else "")
  }

  const SentHead := "✅ Sent to Claude:\n\n📂 Path: `"
  const SentMid := "`\n📄 Will read: `CLAUDE.md`\n💬 Task: `"
  const SentTail := "`\n\nUse /tmux\\_tail to see response."

  function SentText(workdir: string, task: string): string {
    SentHead + workdir + SentMid + Preview(task) + SentTail
  }

  const UnknownHead := "Unknown command: "
  const UnknownTail := "\nUse /help to see available commands."

  function UnknownText(cmd: string): string {
    UnknownHead + cmd + UnknownTail
  }

  function SelectedText(optionLabel: string): string {
    "✅ Selected: *" + optionLabel + "*"
  }

  // ---------------------------------------------------------------------------
  // /status
  // ---------------------------------------------------------------------------

  /** `lines.filter(Boolean)`: the empty strings are dropped, the order kept. */
  function NonEmpty(lines: seq<string>): (r: seq<string>)
    ensures |r| <= |lines|
  {
    if |lines| == 0 then []
    else (if lines[0] == "" then [] else [lines[0]]) + NonEmpty(lines[1..])
  }

  /** The filter keeps exactly the non-empty lines. */
  lemma {:induction false} NonEmptyKeeps(lines: seq<string>)
    ensures forall l :: l in NonEmpty(lines) <==> l in lines && l != ""
  {
    if |lines| > 0 {
      NonEmptyKeeps(lines[1..]);
      assert lines == [lines[0]] + lines[1..];
    }
  }

  /** One step of the filter, at position `i`. */
  lemma NonEmptyStep(lines: seq<string>, i: nat)
    requires i < |lines|
    ensures NonEmpty(lines[i..]) == (if lines[i] == "" then [] else [lines[i]]) + NonEmpty(lines[i + 1..])
  {
    assert lines[i..][1..] == lines[i + 1..];
  }

  const StatusHeading := "*Status*"

  function SessionLine(active: bool): string {
    "Claude Session: " + (if active then "🟢 Active" else "⚪ Inactive")
  }

  function TmuxLine(running: bool): string {
    "Tmux Session: " + (if running then "🟢 Running" else "⚪ Not running")
  }

  function WorkdirLine(workdir: string): string {
    "📂 Workdir: `" + workdir + "`"
  }

  /** Empty when the session recorded no start time. */
  function StartedLine(started: Option<string>): string {
    if started.Some? then "Started: " + started.value else ""
  }

  function PendingLine(pendingCount: nat): string {
    "Pending questions: " + NatToString(pendingCount)
  }

  function QueuedLine(queued: nat): string {
    "Queued commands: " + NatToString(queued)
  }

  /** The candidate `/status` lines, before the empty ones are filtered out. */
  function StatusCandidates(active: bool, tmuxRunning: bool, workdir: string, started: Option<string>,
                            pendingCount: nat, queued: nat): seq<string> {
    [ StatusHeading, "", SessionLine(active), TmuxLine(tmuxRunning), WorkdirLine(workdir),
      StartedLine(started), "", PendingLine(pendingCount), QueuedLine(queued) ]
  }

  /** The `/status` report; `started` is the formatted start time when the session recorded one. */
  function StatusText(active: bool, tmuxRunning: bool, workdir: string, started: Option<string>,
                      pendingCount: nat, queued: nat): string {
    Join(NonEmpty(StatusCandidates(active, tmuxRunning, workdir, started, pendingCount, queued)), "\n")
  }

  lemma NonEmptyAppend(a: seq<string>, b: seq<string>)
    ensures NonEmpty(a + b) == NonEmpty(a) + NonEmpty(b)
  {
    if |a| > 0 {
      NonEmptyAppend(a[1..], b);
      assert (a + b)[1..] == a[1..] + b;
    } else {
      assert a + b == b;
    }
  }

  /** The filter over nine lines of which the second and seventh are blank and the sixth may be. */
  lemma FilterNine(c: seq<string>)
    requires |c| == 9 && c[1] == "" && c[6] == ""
    requires c[0] != "" && c[2] != "" && c[3] != "" && c[4] != "" && c[7] != "" && c[8] != ""
    ensures NonEmpty(c) == [c[0], c[2], c[3], c[4]] + (if c[5] != "" then [c[5]] else []) + [c[7], c[8]]
  {
    assert c == c[..5] + [c[5]] + c[6..];
    NonEmptyAppend(c[..5] + [c[5]], c[6..]);
    NonEmptyAppend(c[..5], [c[5]]);
    FilterFront(c[..5]);
    NonEmptyStep([c[5]], 0);
    FilterBack(c[6..]);
  }

  lemma FilterFront(c: seq<string>)
    requires |c| == 5 && c[1] == "" && c[0] != "" && c[2] != "" && c[3] != "" && c[4] != ""
    ensures NonEmpty(c) == [c[0], c[2], c[3], c[4]]
  {
    assert NonEmpty(c[5..]) == [];
    NonEmptyStep(c, 4);
    NonEmptyStep(c, 3);
    NonEmptyStep(c, 2);
    NonEmptyStep(c, 1);
    NonEmptyStep(c, 0);
    assert c[0..] == c;
  }

  lemma FilterBack(c: seq<string>)
    requires |c| == 3 && c[0] == "" && c[1] != "" && c[2] != ""
    ensures NonEmpty(c) == [c[1], c[2]]
  {
    assert NonEmpty(c[3..]) == [];
    NonEmptyStep(c, 2);
    NonEmptyStep(c, 1);
    NonEmptyStep(c, 0);
    assert c[0..] == c;
  }

  /**
   * Because of the filter, the report has no blank separator lines: it is
   * the heading, the two session lines, the working directory, the start
   * time when known, and the two counters, in that order.
   */
  lemma StatusLines(active: bool, tmuxRunning: bool, workdir: string, started: Option<string>,
                    pendingCount: nat, queued: nat)
    ensures NonEmpty(StatusCandidates(active, tmuxRunning, workdir, started, pendingCount, queued))
      == [StatusHeading, SessionLine(active), TmuxLine(tmuxRunning), WorkdirLine(workdir)]
         + (if started.Some? then [StartedLine(started)] else [])
         + [PendingLine(pendingCount), QueuedLine(queued)]
  {
    var c := StatusCandidates(active, tmuxRunning, workdir, started, pendingCount, queued);
    assert c[0] != "" && c[2] != "" && c[3] != "" && c[4] != "" && c[7] != "" && c[8] != "";
    assert started.Some? <==> c[5] != "";
    FilterNine(c);
  }

  // ---------------------------------------------------------------------------
  // HTTP routing
  // ---------------------------------------------------------------------------

  datatype Route =
    | HealthRoute
    | NotifyRoute
    | AskRoute
    | ResponseRoute(correlationId: string)
    | SessionRoute
    | CommandsRoute
    | NoRoute

  /** `path.split('/').pop()` */
  function LastSegment(path: string): (r: string)
    ensures '/' !in r && EndsWith(path, r)
    ensures |r| == |path| || path[|path| - |r| - 1] == '/'
  {
    LastPiece(path, '/');
    LastOf(Split(path, '/'))
  }

  function LastOf(parts: seq<string>): string
    requires |parts| > 0
  {
    parts[|parts| - 1]
  }

  /** `r` ends `s` and is either all of it or preceded by a `c`. */
  predicate TailAfter(s: string, r: string, c: char) {
    EndsWith(s, r) && (|r| == |s| || s[|s| - |r| - 1] == c)
  }

  /** The last piece of a split is the longest separator-free suffix. */
  lemma {:induction false} LastPiece(s: string, c: char)
    ensures TailAfter(s, LastOf(Split(s, c)), c)
    decreases |s|
  {
    match IndexOf(s, c)
    case None =>
      assert Split(s, c) == [s];
      assert s[|s| - |s|..] == s;
    case Some(k) =>
      LastPiece(s[k + 1..], c);
      LastPieceStep(s, c, k);
  }

  /** The last piece after the first separator is also the last piece of the whole. */
  lemma LastPieceStep(s: string, c: char, k: nat)
    requires IndexOf(s, c) == Some(k)
    requires TailAfter(s[k + 1..], LastOf(Split(s[k + 1..], c)), c)
    ensures TailAfter(s, LastOf(Split(s, c)), c)
  {
    var parts := Split(s[k + 1..], c);
    assert Split(s, c) == [s[..k]] + parts;
    assert LastOf(Split(s, c)) == LastOf(parts);
    TailStep(s, k, LastOf(parts), c);
  }

  /** A tail of what follows a separator is a tail of the whole. */
  lemma TailStep(s: string, k: nat, r: string, c: char)
    requires k < |s| && s[k] == c && TailAfter(s[k + 1..], r, c)
    ensures TailAfter(s, r, c)
  {
    var t := s[k + 1..];
    SuffixOfSuffix(s, k + 1, r);
    if |r| == |t| {
      assert |s| - |r| - 1 == k;
    } else {
      assert s[|s| - |r| - 1] == t[|t| - |r| - 1];
    }
  }

  lemma SuffixOfSuffix(s: string, j: nat, r: string)
    requires j <= |s| && EndsWith(s[j..], r)
    ensures EndsWith(s, r)
  {
    assert s[|s| - |r|..] == s[j..][|s| - j - |r|..];
  }

  const ResponsePrefix := "/api/response/"

  /** A response lookup names the correlation id as the last path segment. */
  lemma ResponsePathId(id: string)
    requires '/' !in id
    ensures LastSegment(ResponsePrefix + id) == id
  {
    var path := ResponsePrefix + id;
    assert path[|path| - |id|..] == id;
    assert path[|path| - |id| - 1] == '/';
    SegmentAfterSlash(path, id);
  }

  /** A slash-free tail that follows a slash is the last segment. */
  lemma SegmentAfterSlash(path: string, id: string)
    requires '/' !in id && EndsWith(path, id) && |id| < |path| && path[|path| - |id| - 1] == '/'
    ensures LastSegment(path) == id
  {
    var r := LastSegment(path);
    var n := |path|;
    assert forall i :: 0 <= i < |r| ==> path[n - |r| + i] == r[i];
    assert forall i :: 0 <= i < |id| ==> path[n - |id| + i] == id[i];
    if |r| < |id| {
      assert false;
    } else if |r| > |id| {
      assert false;
    }
  }

  /** `handleRequest`'s dispatch: the first matching path and method wins. */
  function RouteOf(verb: string, path: string): (r: Route)
    ensures r.NoRoute? <==>
      !(path == "/health" && verb == "GET") && !(path == "/api/notify" && verb == "POST")
      && !(path == "/api/ask" && verb == "POST") && !(StartsWith(path, ResponsePrefix) && verb == "GET")
      && !(path == "/api/session" && verb == "POST") && !(path == "/api/commands" && verb == "GET")
    ensures r.ResponseRoute? ==> '/' !in r.correlationId && EndsWith(path, r.correlationId)
  {
    if path == "/health" && verb == "GET" then HealthRoute
    else if path == "/api/notify" && verb == "POST" then NotifyRoute
    else if path == "/api/ask" && verb == "POST" then AskRoute
    else if StartsWith(path, ResponsePrefix) && verb == "GET" then ResponseRoute(LastSegment(path))
    else if path == "/api/session" && verb == "POST" then SessionRoute
    else if path == "/api/commands" && verb == "GET" then CommandsRoute
    else NoRoute
  }

  /** Every endpoint answers only to its own method: the same path with the other method is not found. */
  lemma RoutesNeedMethod(id: string)
    requires '/' !in id
    ensures RouteOf("POST", "/health").NoRoute? && RouteOf("GET", "/api/notify").NoRoute?
    ensures RouteOf("GET", "/api/ask").NoRoute? && RouteOf("GET", "/api/session").NoRoute?
    ensures RouteOf("POST", "/api/commands").NoRoute? && RouteOf("POST", ResponsePrefix + id).NoRoute?
    ensures RouteOf("GET", ResponsePrefix + id) == ResponseRoute(id)
  {
    ResponsePathId(id);
    var p := ResponsePrefix + id;
    assert StartsWith(p, ResponsePrefix);
    assert p != "/health" by { assert p[1] != "/health"[1]; }
    assert p != "/api/notify" by { assert |p| >= 14; }
    assert p != "/api/ask" by { assert |p| >= 14; }
    assert p != "/api/session" by { assert |p| >= 14 && p[5] != "/api/session"[5]; }
  }

  // ---------------------------------------------------------------------------
  // Request bodies
  // ---------------------------------------------------------------------------

  /** `const { timeout = 300000 } = body`, as the comparison `elapsed < timeout` reads it. */
  function AskTimeout(body: Object): (t: int)
    ensures "timeout" !in body ==> t == DefaultAskTimeout
    ensures "timeout" in body && body["timeout"].JNum? ==> t == body["timeout"].n
  {
    match Get(body, "timeout")
    case None => DefaultAskTimeout
    case Some(JNum(n)) => n
    case Some(JBool(b)) => if b then 1 else 0
    case Some(_) => 0
  }

  /** `${x}` of a property that may be absent. */
  function Field(o: Object, key: string): string {
    if key in o then Render(o[key]) else "undefined"
  }

  /** One option of an `/api/ask` question, as the layout reads `label` and `description`. */
  function ToOption(v: Value): Utils.QuestionOption {
    match v
    case JObj(f) => Utils.QuestionOption(Field(f, "label"), if TruthyOpt(Get(f, "description")) then Render(f["description"]) else "")
    case _ => Utils.QuestionOption("undefined", "")
  }

  /** One question of an `/api/ask` body; options count only when they are an array. */
  function ToQuestion(v: Value): (q: Utils.Question)
    ensures v.JObj? && "options" in v.fields && v.fields["options"].JArr? ==>
      |q.options| == |v.fields["options"].elems|
  {
    match v
    case JObj(f) =>
      var opts := if "options" in f && f["options"].JArr? then f["options"].elems else [];
      Utils.Question(Field(f, "question"), seq(|opts|, i requires 0 <= i < |opts| => ToOption(opts[i])))
    case _ => Utils.Question("undefined", [])
  }

  function ToQuestions(elems: seq<Value>): (qs: seq<Utils.Question>)
    ensures |qs| == |elems|
  {
    seq(|elems|, i requires 0 <= i < |elems| => ToQuestion(elems[i]))
  }

  /**
   * The notification data the formatter receives: `project`, `toolName`,
   * `input` and `result` from the body, overridden by the keys of `data`
   * when it is an object.
   */
  function NotifyData(body: Object): (d: Object)
    ensures forall k :: k in d && !(Get(body, "data").Some? && body["data"].JObj? && k in body["data"].fields) ==>
      k in body && (k == "project" || k == "toolName" || k == "input" || k == "result")
    ensures Get(body, "data").Some? && body["data"].JObj? ==>
      forall k :: k in body["data"].fields ==> k in d && d[k] == body["data"].fields[k]
    ensures forall k :: (k in body && (k == "project" || k == "toolName" || k == "input" || k == "result")
      && !(Get(body, "data").Some? && body["data"].JObj? && k in body["data"].fields)) ==> k in d && d[k] == body[k]
  {
    var own := map k | k in body && (k == "project" || k == "toolName" || k == "input" || k == "result") :: body[k];
    match Get(body, "data")
    case Some(JObj(extra)) => own + extra
    case _ => own
  }

  /** A truthy property rendered as text, `None` when absent or falsy. */
  function TextOpt(v: Option<Value>): (r: Option<string>)
    ensures r.Some? <==> TruthyOpt(v)
  {
    if TruthyOpt(v) then Some(Render(v.value)) else None
  }
}

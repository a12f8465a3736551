/**
 * The background worker: one process holding the question registry, the
 * session record, the command queue, the configuration and the polling
 * offset, driven by Telegram updates (chat messages and button presses) and
 * by HTTP requests from the hooks. It also drives a tmux session running the
 * assistant. Every handler is a method on the worker's state; the registry
 * handlers are proved to perform exactly the transitions of the `Broker`
 * module, and the invariants in `Valid` are kept by all of them.
 *
 * The Bot API and tmux are outside the model: messages the worker sends are
 * appended to `outbox`, tmux invocations that change or read the session to
 * `tmuxLog`, and what the outside world answers is passed in as an `Env`.
 */
module Worker {
  import opened Base
  import opened Text
  import opened Json
  import opened Config
  import opened Utils
  import opened WorkerSpec
  import Broker
  import TelegramApi
  import Formatter

  /** What the worker sends through the Bot API. */
  datatype Outgoing =
    | Message(chat: Value, text: string)
    | KeyboardMessage(chat: Value, text: string, keyboard: seq<seq<Button>>)
    | CallbackAnswer(queryId: string, notice: Option<string>)

  /** The tmux invocations that create, feed, read or end the session. */
  datatype TmuxCall =
    | NewSession(session: string, workdir: string, command: string)
    | SendKeys(session: string, keys: string)
    | CapturePane(session: string, depth: int)
    | KillSession(session: string)

  /**
   * What the outside world answers during one handler call: whether tmux is
   * installed and each tmux invocation exits with code 0, the captured pane,
   * the failing invocation's output, the process directory, the clock (as a
   * number and formatted), and the formatter's inputs that come from text
   * clean-up heuristics.
   */
  datatype Env = Env(
    tmuxInstalled: bool, newSessionOk: bool, sendKeysOk: bool, captureOk: bool, killOk: bool,
    captured: string, failure: string, processCwd: string,
    now: int, startedText: string, time: string, timestamp: string,
    cleanedSummary: Option<string>, cleanedError: Option<string>, toolDetails: seq<string>)

  /** `{ started | stopped, message }` of `tmuxStart` and `tmuxStop`. */
  datatype Report = Report(changed: bool, message: string)

  /** A chat message: the chat, the sender (absent for channel posts), the text (`''` when absent). */
  datatype ChatMessage = ChatMessage(chat: Value, userId: Option<int>, text: string)

  /** The decoded `callback_data` of a button press; `Malformed` when `JSON.parse` throws. */
  datatype CallbackData = Malformed | OtherPressed | OptionPressed(q: Option<int>, o: Option<int>)

  datatype CallbackQuery = CallbackQuery(queryId: string, userId: Option<int>, chat: Value, data: CallbackData)

  datatype UpdateKind = MessageUpdate(message: ChatMessage) | CallbackUpdate(query: CallbackQuery) | OtherUpdate

  datatype Update = Update(updateId: int, kind: UpdateKind)

  /** A request body after `parseBody`: `InvalidJson` when parsing rejects it; an empty body is `{}`. */
  datatype RequestBody = InvalidJson | Body(fields: Object)

  datatype ReplyBody =
    | Healthy
    | Succeeded
    | SkippedEvent
    | Failure(error: string)
    | Answered(response: Broker.Response)
    | TimedOut(correlationId: string)
    | Found(response: Broker.Response)
    | NotFound
    | CommandList(commands: seq<Value>)

  /** An HTTP reply: the status code and the JSON body. */
  datatype Reply = Reply(status: int, body: ReplyBody)

  const InitialSession: Object := map["active" := JBool(false), "cwd" := JNull, "startedAt" := JNull]

  /**
   * `formatNotification('Worker started', { status: 'success' })`: the success
   * header under the default project name, the message, then the timestamp.
   */
  function StartupText(timestamp: string): (r: string)
    ensures r == TelegramApi.StatusEmoji("success") + " *" + "Claude Code" + "*" + "\n\n" + "Worker started" + "\n\n_" + timestamp + "_"
  {
    TelegramApi.FormatNotification("Worker started", Some("success"), None, None, timestamp)
  }

  /** `config.chat_id`, `null` standing for `undefined`. */
  function ChatOf(config: Object): Value {
    if "chat_id" in config then config["chat_id"] else JNull
  }

  predicate Authorized(config: Object, userId: Option<int>) {
    IsUserAllowed(userId, Get(config, "allowed_user_ids"))
  }

  // ---------------------------------------------------------------------------
  // What tmux answers, as functions of the session state and the environment
  // ---------------------------------------------------------------------------

  /** The outcome of `tmuxStart` (an `Err` is the exception it throws). */
  function StartOutcome(running: bool, env: Env): (r: Result<Report>)
    ensures r.Ok? ==> env.tmuxInstalled && (r.value.changed <==> !running)
  {
    if !env.tmuxInstalled then Err("tmux not found. Install tmux first.")
    else if running then Ok(Report(false, "Session already running"))
    else if env.newSessionOk then Ok(Report(true, "Session started"))
    else Err("Failed to start tmux: " + env.failure)
  }

  /** The exception `tmuxSend` throws for non-empty text, if any. */
  function SendError(running: bool, env: Env): (e: Option<string>)
    ensures e.None? ==> env.sendKeysOk && (running || StartOutcome(running, env).Ok?)
  {
    if !running && StartOutcome(running, env).Err? then Some(StartOutcome(running, env).message)
    else if !env.sendKeysOk then Some("tmux send-keys failed: " + env.failure)
    else None
  }

  /** The outcome of `tmuxTail`: the capture without escape sequences and trailing white space. */
  function TailOutcome(running: bool, env: Env): (r: Result<string>)
    ensures r.Ok? ==> running && env.captureOk && |r.value| <= |env.captured|
  {
    if !running then Err("No tmux session running")
    else if !env.captureOk then Err("tmux capture-pane failed: " + env.failure)
    else Ok(TrimEnd(StripAnsi(env.captured)))
  }

  /** The outcome of `tmuxStop`. */
  function StopOutcome(running: bool, env: Env): (r: Result<Report>)
    ensures r.Ok? ==> (r.value.changed <==> running)
  {
    if !running then Ok(Report(false, "No session running"))
    else if !env.killOk then Err("tmux kill-session failed: " + env.failure)
    else Ok(Report(true, "Session stopped"))
  }

  function StartReply(r: Result<Report>): string {
    match r
    case Ok(report) => if report.changed then TmuxStartedText else InfoText(report.message)
    case Err(m) => ErrorText(m)
  }

  function StopReply(r: Result<Report>): string {
    match r
    case Ok(report) => if report.changed then TmuxStoppedText else InfoText(report.message)
    case Err(m) => ErrorText(m)
  }

  function TailReply(lines: int, r: Result<string>): string {
    match r
    case Ok(output) => if output != "" then TailText(lines, output) else NoOutputText
    case Err(m) => ErrorText(m)
  }

  /** What answers a button press, given what the press resolves to. */
  function CallbackReplies(sel: Broker.Selection, query: CallbackQuery): seq<Outgoing> {
    match sel
    case Expired => [CallbackAnswer(query.queryId, Some("Question expired"))]
    case InvalidOption => [CallbackAnswer(query.queryId, Some("Invalid option"))]
    case Recorded(l) => [CallbackAnswer(query.queryId, Some("Response recorded")), Message(query.chat, SelectedText(l))]
  }

  /** The message that carries an `/api/ask` question set. */
  function AskMessage(chat: Value, qs: seq<Question>): Outgoing {
    KeyboardMessage(chat, TelegramApi.StatusEmoji("question") + AskHeading + Join(LinesUpTo(qs, |qs|), "\n"),
                    RowsUpTo(qs, |qs|) + [[OtherButton]])
  }

  /** `questions` is present and an array. */
  predicate AsksQuestions(body: Object) {
    "questions" in body && body["questions"].JArr?
  }

  /**
   * What `/api/notify` sends: an `Err` for the 400 reply, `Ok(None)` when
   * the formatter skips the event, otherwise the message text.
   */
  function NotifyOutcome(body: Object, verbose: bool, env: Env): (r: Result<Option<string>>)
    ensures r.Err? <==> !TruthyOpt(Get(body, "eventType")) && !TruthyOpt(Get(body, "message"))
    ensures r.Err? ==> r.message == "message or eventType required"
    ensures (TruthyOpt(Get(body, "eventType")) && !verbose && Render(body["eventType"]) != "tool"
             && !Formatter.IsSummaryEvent(Render(body["eventType"]))) ==> r == Ok(None)
    ensures TruthyOpt(Get(body, "eventType")) && verbose && Render(body["eventType"]) != "tool" ==> r.Ok? && r.value.Some?
    ensures r.Ok? && r.value.Some? && TruthyOpt(Get(body, "eventType")) ==>
      EndsWith(r.value.value, "\n\n" + Formatter.TimeLine(env.time))
    ensures r.Ok? && !TruthyOpt(Get(body, "eventType")) ==>
      r.value.Some? && EndsWith(r.value.value, "\n\n" + Render(body["message"]) + "\n\n_" + env.timestamp + "_")
  {
    if TruthyOpt(Get(body, "eventType")) then
      Ok(Formatter.FormatNotificationMessage(Render(body["eventType"]), NotifyData(body), verbose, env.time,
                                             env.cleanedSummary, env.cleanedError, env.toolDetails))
    else if !TruthyOpt(Get(body, "message")) then Err("message or eventType required")
    else Ok(Some(TelegramApi.FormatNotification(Render(body["message"]), TextOpt(Get(body, "status")),
                                               TextOpt(Get(body, "project")), None, env.timestamp)))
  }

  class Worker {
    var pending: seq<Broker.Slot>
    var responses: map<string, Broker.Response>
    var commandQueue: seq<Value>
    var sessionInfo: Object
    var config: Object
    var configFile: ConfigFile
    var pollingOffset: int
    var tmuxRunning: bool
    var tmuxLog: seq<TmuxCall>
    var outbox: seq<Outgoing>
    /** Every correlation id handed out so far. */
    ghost var usedIds: set<string>

    /** The question registry as a value. */
    function Registry(): Broker.Store
      reads this`pending, this`responses
    {
      Broker.Store(pending, responses)
    }

    function Session(): string
      reads this`config
    {
      TmuxSession(config)
    }

    function Workdir(env: Env): string
      reads this`config, this`sessionInfo
    {
      GetWorkdir(config, sessionInfo, env.processCwd)
    }

    /**
     * The registry is well-formed and uses only handed-out ids; no injected
     * text exceeds the send limit; every capture asks for 10 to 500 lines;
     * every question message ends its keyboard with the "Other" row.
     */
    ghost predicate Valid()
      reads this`pending, this`responses, this`usedIds, this`tmuxLog, this`outbox
    {
      && Broker.Valid(Registry())
      && Broker.Ids(pending) <= usedIds
      && responses.Keys <= usedIds
      && (forall c :: c in tmuxLog && c.SendKeys? ==> |c.keys| <= SendLimit)
      && (forall c :: c in tmuxLog && c.CapturePane? ==> 10 <= c.depth <= 500)
      && (forall m :: m in outbox && m.KeyboardMessage? ==> |m.keyboard| > 0 && m.keyboard[|m.keyboard| - 1] == [OtherButton])
    }

    twostate predicate RegistryKept()
      reads this`pending, this`responses, this`usedIds
    {
      pending == old(pending) && responses == old(responses) && usedIds == old(usedIds)
    }

    twostate predicate SettingsKept()
      reads this`config, this`configFile
    {
      config == old(config) && configFile == old(configFile)
    }

    twostate predicate BridgeKept()
      reads this`tmuxRunning, this`tmuxLog
    {
      tmuxRunning == old(tmuxRunning) && tmuxLog == old(tmuxLog)
    }

    twostate predicate HostKept()
      reads this`sessionInfo, this`commandQueue, this`pollingOffset
    {
      sessionInfo == old(sessionInfo) && commandQueue == old(commandQueue) && pollingOffset == old(pollingOffset)
    }

    /**
     * The registry only moved forward: responses were recorded or changed
     * only for questions that were pending, no question became pending, and
     * no response was taken away.
     */
    twostate predicate AnswersOnlyPending()
      reads this`pending, this`responses
    {
      && Broker.WritesOnlyPending(old(Registry()), Registry())
      && Broker.Ids(pending) <= old(Broker.Ids(pending))
      && old(responses).Keys <= responses.Keys
    }

    /**
     * `main()` after the startup guard: the configuration is loaded, the
     * "Worker started" notification (stamped with `timestamp`, the clock's
     * text) is the one message sent, and everything else is empty.
     */
    constructor(file: ConfigFile, sessionExists: bool, timestamp: string)
      ensures config == LoadConfig(file) && configFile == file
      ensures pending == [] && responses == map[] && commandQueue == [] && sessionInfo == InitialSession
      ensures pollingOffset == 0 && tmuxRunning == sessionExists && tmuxLog == []
      ensures outbox == [Message(ChatOf(config), StartupText(timestamp))]
      ensures Valid()
    {
      pending := [];
      responses := map[];
      commandQueue := [];
      sessionInfo := InitialSession;
      config := LoadConfig(file);
      configFile := file;
      pollingOffset := 0;
      tmuxRunning := sessionExists;
      tmuxLog := [];
      usedIds := {};
      outbox := [Message(ChatOf(LoadConfig(file)), StartupText(timestamp))];
    }

    method Tell(chat: Value, text: string)
      requires Valid()
      modifies this
      ensures Valid()
      ensures outbox == old(outbox) + [Message(chat, text)]
      ensures RegistryKept() && SettingsKept() && BridgeKept() && HostKept()
    {
      outbox := outbox + [Message(chat, text)];
    }

    // -------------------------------------------------------------------------
    // tmux
    // -------------------------------------------------------------------------

    /** `tmuxStart()`: creates the session in the working directory unless it already exists. */
    method TmuxStart(env: Env) returns (r: Result<Report>)
      requires Valid()
      modifies this
      ensures Valid()
      ensures RegistryKept() && SettingsKept() && HostKept() && outbox == old(outbox)
      ensures r == StartOutcome(old(tmuxRunning), env)
      ensures env.tmuxInstalled && !old(tmuxRunning) ==>
        tmuxLog == old(tmuxLog) + [NewSession(Session(), Workdir(env), ClaudeCmd(config))] && tmuxRunning == env.newSessionOk
      ensures !env.tmuxInstalled || old(tmuxRunning) ==> BridgeKept()
      ensures r.Ok? ==> tmuxRunning
    {
      if !env.tmuxInstalled {
        return Err("tmux not found. Install tmux first.");
      }
      if tmuxRunning {
        return Ok(Report(false, "Session already running"));
      }
      tmuxLog := tmuxLog + [NewSession(Session(), Workdir(env), ClaudeCmd(config))];
      if !env.newSessionOk {
        return Err("Failed to start tmux: " + env.failure);
      }
      tmuxRunning := true;
      return Ok(Report(true, "Session started"));
    }

    /**
     * `tmuxSend(text)`: starts the session when it is missing, then types at
     * most 4000 characters of the text into it. `None` means sent.
     */
    method TmuxSend(text: string, env: Env) returns (error: Option<string>)
      requires Valid()
      modifies this
      ensures Valid()
      ensures RegistryKept() && SettingsKept() && HostKept() && outbox == old(outbox)
      ensures text == "" ==> error == Some("No text to send") && BridgeKept()
      ensures text != "" ==> error == SendError(old(tmuxRunning), env)
      ensures text != "" && (old(tmuxRunning) || (env.tmuxInstalled && env.newSessionOk)) ==>
        && tmuxRunning
        && tmuxLog == old(tmuxLog)
             + (if old(tmuxRunning) then [] else [NewSession(Session(), Workdir(env), ClaudeCmd(config))])
             + [SendKeys(Session(), Slice(text, 0, SendLimit))]
      ensures text != "" && !old(tmuxRunning) && !(env.tmuxInstalled && env.newSessionOk) ==>
        && !tmuxRunning
        && tmuxLog == old(tmuxLog) + (if env.tmuxInstalled then [NewSession(Session(), Workdir(env), ClaudeCmd(config))] else [])
    {
      if text == "" {
        return Some("No text to send");
      }
      if !tmuxRunning {
        var started := TmuxStart(env);
        if started.Err? {
          return Some(started.message);
        }
      }
      tmuxLog := tmuxLog + [SendKeys(Session(), Slice(text, 0, SendLimit))];
      if !env.sendKeysOk {
        return Some("tmux send-keys failed: " + env.failure);
      }
      return None;
    }

    /** `tmuxTail(lines)`: captures the last 10 to 500 lines of the pane. */
    method TmuxTail(lines: int, env: Env) returns (r: Result<string>)
      requires Valid()
      modifies this
      ensures Valid()
      ensures RegistryKept() && SettingsKept() && HostKept() && outbox == old(outbox)
      ensures r == TailOutcome(old(tmuxRunning), env)
      ensures tmuxRunning == old(tmuxRunning)
      ensures !old(tmuxRunning) ==> tmuxLog == old(tmuxLog)
      ensures old(tmuxRunning) ==> tmuxLog == old(tmuxLog) + [CapturePane(Session(), TailDepth(lines))]
    {
      if !tmuxRunning {
        return Err("No tmux session running");
      }
      tmuxLog := tmuxLog + [CapturePane(Session(), TailDepth(lines))];
      if !env.captureOk {
        return Err("tmux capture-pane failed: " + env.failure);
      }
      return Ok(TrimEnd(StripAnsi(env.captured)));
    }

    /** `tmuxStop()`: ends the session if there is one. */
    method TmuxStop(env: Env) returns (r: Result<Report>)
      requires Valid()
      modifies this
      ensures Valid()
      ensures RegistryKept() && SettingsKept() && HostKept() && outbox == old(outbox)
      ensures r == StopOutcome(old(tmuxRunning), env)
      ensures !old(tmuxRunning) ==> BridgeKept()
      ensures old(tmuxRunning) ==> tmuxLog == old(tmuxLog) + [KillSession(Session())] && tmuxRunning == !env.killOk
      ensures r.Ok? ==> !tmuxRunning
    {
      if !tmuxRunning {
        return Ok(Report(false, "No session running"));
      }
      tmuxLog := tmuxLog + [KillSession(Session())];
      if !env.killOk {
        return Err("tmux kill-session failed: " + env.failure);
      }
      tmuxRunning := false;
      return Ok(Report(true, "Session stopped"));
    }

    // -------------------------------------------------------------------------
    // Chat commands
    // -------------------------------------------------------------------------

    /** A plain message answers the first question waiting for typed text, if any. */
    method AcceptFreeText(chat: Value, text: string, now: int)
      requires Valid()
      modifies this
      ensures Valid()
      ensures Registry() == Broker.AcceptText(old(Registry()), text, now) && AnswersOnlyPending()
      ensures usedIds == old(usedIds) && SettingsKept() && BridgeKept() && HostKept()
      ensures outbox == old(outbox) + (if Broker.FirstAwaiting(old(pending)).Some? then [Message(chat, ReceivedText(text))] else [])
    {
      Broker.AcceptTextValid(Registry(), text, now);
      match Broker.FirstAwaiting(pending)
      case None =>
      case Some(i) =>
        var id := pending[i].id;
        responses := responses[id := Broker.Response(Broker.TextReply, Some(text), None, None, now)];
        pending := Broker.Delete(pending, id);
        outbox := outbox + [Message(chat, ReceivedText(text))];
    }

    /** What `/cancel` leaves behind: the cancel-all transition and its reply. */
    twostate predicate CancelDone(new chat: Value, new now: int)
      reads this`pending, this`responses, this`outbox
    {
      && Registry() == Broker.CancelAll(old(Registry()), now)
      && outbox == old(outbox) + [Message(chat, if |old(pending)| == 0 then NothingToCancelText else CancelledText)]
    }

    /** `/cancel`: every pending question is answered as cancelled, then the pending map is cleared. */
    method Cancel(chat: Value, now: int)
      requires Valid()
      modifies this
      ensures Valid()
      ensures CancelDone(chat, now) && AnswersOnlyPending()
      ensures usedIds == old(usedIds) && SettingsKept() && BridgeKept() && HostKept()
    {
      Broker.CancelAllSpec(Registry(), now);
      if |pending| == 0 {
        outbox := outbox + [Message(chat, NothingToCancelText)];
        return;
      }
      responses := RecordCancellations(responses, pending, now);
      pending := [];
      outbox := outbox + [Message(chat, CancelledText)];
    }

    /**
     * What `/verbose [arg]` leaves behind: the mode `NextVerbose` gives, the
     * reply, and for a switch or a toggle the new mode in the live
     * configuration and in the saved file.
     */
    twostate predicate VerboseDone(new chat: Value, new rest: string)
      reads this`config, this`configFile, this`outbox
    {
      var current := TruthyOpt(Get(old(config), "verbose_mode"));
      var arg := ToLower(rest);
      var mode := NextVerbose(current, arg);
      && TruthyOpt(Get(config, "verbose_mode")) == mode
      && outbox == old(outbox) + [Message(chat, VerboseReply(current, arg))]
      && (!ChangesVerbose(arg) ==> config == old(config) && configFile == old(configFile))
      && (ChangesVerbose(arg) ==>
            && config == old(config)["verbose_mode" := JBool(mode)]
            && configFile == AfterUpdate(old(configFile), map["verbose_mode" := JBool(mode)]))
    }

    /** `/verbose [arg]`: switch, toggle or report the notification mode; a change is also saved. */
    method Verbose(chat: Value, rest: string)
      requires Valid()
      modifies this
      ensures Valid()
      ensures RegistryKept() && BridgeKept() && HostKept()
      ensures VerboseDone(chat, rest)
      ensures ChangesVerbose(ToLower(rest)) ==>
        Get(LoadConfig(configFile), "verbose_mode") == Some(JBool(NextVerbose(TruthyOpt(Get(old(config), "verbose_mode")), ToLower(rest))))
    {
      var current := TruthyOpt(Get(config, "verbose_mode"));
      var arg := ToLower(rest);
      if ChangesVerbose(arg) {
        SetVerbose(NextVerbose(current, arg));
      }
      outbox := outbox + [Message(chat, VerboseReply(current, arg))];
    }

    /** The new mode goes into the live configuration and is saved to the file. */
    method SetVerbose(mode: bool)
      requires Valid()
      modifies this
      ensures Valid()
      ensures RegistryKept() && BridgeKept() && HostKept() && outbox == old(outbox)
      ensures config == old(config)["verbose_mode" := JBool(mode)]
      ensures configFile == AfterUpdate(old(configFile), map["verbose_mode" := JBool(mode)])
      ensures Get(LoadConfig(configFile), "verbose_mode") == Some(JBool(mode))
    {
      config := config["verbose_mode" := JBool(mode)];
      UpdateThenLoad(configFile, map["verbose_mode" := JBool(mode)]);
      configFile := AfterUpdate(configFile, map["verbose_mode" := JBool(mode)]);
    }

    /** What `/status` leaves behind: the report for the current state. */
    twostate predicate StatusDone(new chat: Value, new env: Env)
      reads this
    {
      outbox == old(outbox) + [Message(chat, StatusText(
        TruthyOpt(Get(sessionInfo, "active")), tmuxRunning, Workdir(env),
        if TruthyOpt(Get(sessionInfo, "startedAt")) then Some(env.startedText) else None,
        |pending|, |commandQueue|))]
    }

    /** `/status`: the session flags, the working directory and the two counters. */
    method Status(chat: Value, env: Env)
      requires Valid()
      modifies this
      ensures Valid()
      ensures RegistryKept() && SettingsKept() && BridgeKept() && HostKept()
      ensures StatusDone(chat, env)
    {
      var started := if TruthyOpt(Get(sessionInfo, "startedAt")) then Some(env.startedText) else None;
      var text := StatusText(TruthyOpt(Get(sessionInfo, "active")), tmuxRunning, Workdir(env), started,
                             |pending|, |commandQueue|);
      Tell(chat, text);
    }

    /** What `/tmux_start` leaves behind: the reply for the start outcome, and the session it creates. */
    twostate predicate StartDone(new chat: Value, new env: Env)
      reads this
    {
      && outbox == old(outbox) + [Message(chat, StartReply(StartOutcome(old(tmuxRunning), env)))]
      && (env.tmuxInstalled && !old(tmuxRunning) ==>
            tmuxLog == old(tmuxLog) + [NewSession(Session(), Workdir(env), ClaudeCmd(config))] && tmuxRunning == env.newSessionOk)
      && (!env.tmuxInstalled || old(tmuxRunning) ==> tmuxRunning == old(tmuxRunning) && tmuxLog == old(tmuxLog))
    }

    /** `/tmux_start` */
    method TmuxStartCommand(chat: Value, env: Env)
      requires Valid()
      modifies this
      ensures Valid()
      ensures RegistryKept() && SettingsKept() && HostKept()
      ensures StartDone(chat, env)
    {
      var r := TmuxStart(env);
      Tell(chat, StartReply(r));
    }

    /** What `/tmux_stop` leaves behind: the reply for the stop outcome, and the kill it issues. */
    twostate predicate StopDone(new chat: Value, new env: Env)
      reads this
    {
      && outbox == old(outbox) + [Message(chat, StopReply(StopOutcome(old(tmuxRunning), env)))]
      && (!old(tmuxRunning) ==> tmuxRunning == old(tmuxRunning) && tmuxLog == old(tmuxLog))
      && (old(tmuxRunning) ==> tmuxLog == old(tmuxLog) + [KillSession(Session())] && tmuxRunning == !env.killOk)
    }

    /** `/tmux_stop` */
    method TmuxStopCommand(chat: Value, env: Env)
      requires Valid()
      modifies this
      ensures Valid()
      ensures RegistryKept() && SettingsKept() && HostKept()
      ensures StopDone(chat, env)
    {
      var r := TmuxStop(env);
      Tell(chat, StopReply(r));
    }

    /** What `/tmux_tail [n]` leaves behind: the reply for the capture, and the capture it issues. */
    twostate predicate TailDone(new chat: Value, new rest: string, new env: Env)
      reads this
    {
      && tmuxRunning == old(tmuxRunning)
      && outbox == old(outbox) + [Message(chat, TailReply(TailRequest(rest), TailOutcome(old(tmuxRunning), env)))]
      && (!old(tmuxRunning) ==> tmuxLog == old(tmuxLog))
      && (old(tmuxRunning) ==> tmuxLog == old(tmuxLog) + [CapturePane(Session(), TailDepth(TailRequest(rest)))])
    }

    /** `/tmux_tail [n]`: the header names the requested count, the capture uses the clamped depth. */
    method TailCommand(chat: Value, rest: string, env: Env)
      requires Valid()
      modifies this
      ensures Valid()
      ensures RegistryKept() && SettingsKept() && HostKept()
      ensures TailDone(chat, rest, env)
    {
      var lines := TailRequest(rest);
      var r := TmuxTail(lines, env);
      Tell(chat, TailReply(lines, r));
    }

    /** What `/cd [path]` leaves behind: the usage reply, or the new directory and its confirmation. */
    twostate predicate CdDone(new chat: Value, new rest: string, new env: Env)
      reads this`config, this`sessionInfo, this`configFile, this`outbox
    {
      && configFile == old(configFile)
      && (rest == "" ==> config == old(config) && outbox == old(outbox) + [Message(chat, CdUsageText(Workdir(env)))])
      && (rest != "" ==>
            && config == old(config)["workdir" := JStr(rest)]
            && outbox == old(outbox) + [Message(chat, CdDoneText(rest))])
    }

    /** `/cd [path]`: without a path it reports the directory, with one it sets it for this process. */
    method Cd(chat: Value, rest: string, env: Env)
      requires Valid()
      modifies this
      ensures Valid()
      ensures RegistryKept() && BridgeKept() && HostKept()
      ensures CdDone(chat, rest, env)
      ensures rest != "" ==> Workdir(env) == rest
    {
      if rest == "" {
        Tell(chat, CdUsageText(Workdir(env)));
        return;
      }
      config := config["workdir" := JStr(rest)];
      CdOverridesWorkdir(old(config), sessionInfo, env.processCwd, rest);
      Tell(chat, CdDoneText(rest));
    }

    /**
     * What `/send <task>` leaves behind: the usage reply without a task;
     * otherwise the reply for the send outcome and the exact tmux calls: the
     * start attempt when no session was running (none without tmux), then,
     * when the session exists or could be started, the prompt typed into it
     * once, capped at the send limit.
     */
    twostate predicate SendDone(new chat: Value, new rest: string, new env: Env)
      reads this
    {
      && (rest == "" ==>
            && tmuxRunning == old(tmuxRunning) && tmuxLog == old(tmuxLog)
            && outbox == old(outbox) + [Message(chat, SendUsageText(Workdir(env)))])
      && (rest != "" ==>
            var error := SendError(old(tmuxRunning), env);
            outbox == old(outbox) + [Message(chat, if error.None? then SentText(Workdir(env), rest) else ErrorText(error.value))])
      && (rest != "" && (old(tmuxRunning) || (env.tmuxInstalled && env.newSessionOk)) ==>
            && tmuxRunning
            && tmuxLog == old(tmuxLog)
                 + (if old(tmuxRunning) then [] else [NewSession(Session(), Workdir(env), ClaudeCmd(config))])
                 + [SendKeys(Session(), Slice(FullPrompt(Workdir(env), rest), 0, SendLimit))])
      && (rest != "" && !old(tmuxRunning) && !(env.tmuxInstalled && env.newSessionOk) ==>
            && !tmuxRunning
            && tmuxLog == old(tmuxLog) + (if env.tmuxInstalled then [NewSession(Session(), Workdir(env), ClaudeCmd(config))] else []))
    }

    /** `/send <task>`: injects the task, prefixed with the instruction to read the project notes. */
    method SendCommand(chat: Value, rest: string, env: Env)
      requires Valid()
      modifies this
      ensures Valid()
      ensures RegistryKept() && SettingsKept() && HostKept()
      ensures SendDone(chat, rest, env)
    {
      if rest == "" {
        Tell(chat, SendUsageText(Workdir(env)));
        return;
      }
      var workdir := Workdir(env);
      var error := TmuxSend(FullPrompt(workdir, rest), env);
      match error
      case None => Tell(chat, SentText(workdir, rest));
      case Some(m) => Tell(chat, ErrorText(m));
    }

    /**
     * What a command leaves behind, case by case: the reply it sends, the
     * tmux invocations it issues, and the registry and settings it changes.
     */
    twostate predicate CommandDone(new chat: Value, new kind: CommandKind, new rest: string, new env: Env)
      reads this
    {
      match kind
      case HelpCmd => outbox == old(outbox) + [Message(chat, HelpText())]
      case StatusCmd => StatusDone(chat, env)
      case CancelCmd => CancelDone(chat, env.now)
      case VerboseCmd => VerboseDone(chat, rest)
      case CdCmd => CdDone(chat, rest, env)
      case TmuxStartCmd => StartDone(chat, env)
      case TmuxStopCmd => StopDone(chat, env)
      case TmuxTailCmd => TailDone(chat, rest, env)
      case SendCmd => SendDone(chat, rest, env)
      case UnknownCmd(name) => outbox == old(outbox) + [Message(chat, UnknownText(name))]
    }

    /** The commands that drive tmux: neither the registry nor the settings change. */
    method RunTmuxCommand(chat: Value, kind: CommandKind, rest: string, env: Env)
      requires Valid() && DrivesTmux(kind)
      modifies this
      ensures Valid() && RegistryKept() && SettingsKept() && HostKept() && AnswersOnlyPending()
      ensures CommandDone(chat, kind, rest, env)
    {
      match kind
      case TmuxStartCmd => TmuxStartCommand(chat, env);
      case TmuxStopCmd => TmuxStopCommand(chat, env);
      case TmuxTailCmd => TailCommand(chat, rest, env);
      case SendCmd => SendCommand(chat, rest, env);
    }

    /**
     * The other commands: the tmux session is left alone; only `/cancel`
     * touches the registry and only `/verbose` and `/cd` the settings.
     */
    method RunLocalCommand(chat: Value, kind: CommandKind, rest: string, env: Env)
      requires Valid() && !DrivesTmux(kind)
      modifies this
      ensures Valid() && BridgeKept() && HostKept() && usedIds == old(usedIds)
      ensures AnswersOnlyPending()
      ensures kind != CancelCmd ==> RegistryKept()
      ensures kind != VerboseCmd && kind != CdCmd ==> SettingsKept()
      ensures CommandDone(chat, kind, rest, env)
    {
      match kind
      case HelpCmd => Tell(chat, HelpText());
      case StatusCmd => Status(chat, env);
      case CancelCmd => Cancel(chat, env.now);
      case VerboseCmd => Verbose(chat, rest);
      case CdCmd => Cd(chat, rest, env);
      case UnknownCmd(name) => Tell(chat, UnknownText(name));
    }

    /**
     * The part of `handleMessage` after the sender check: text that is not a
     * command answers a question waiting for typed text; commands are
     * dispatched by name. Every command starts with `/`, so the source's
     * guard for other commands never fires.
     */
    method Dispatch(chat: Value, text: string, env: Env)
      requires Valid()
      modifies this
      ensures Valid() && HostKept() && usedIds == old(usedIds) && AnswersOnlyPending()
      ensures ParseCommand(text).cmd.None? ==>
        && Registry() == Broker.AcceptText(old(Registry()), text, env.now) && SettingsKept() && BridgeKept()
        && outbox == old(outbox) + (if Broker.FirstAwaiting(old(pending)).Some? then [Message(chat, ReceivedText(text))] else [])
      ensures ParseCommand(text).cmd.Some? ==>
        var kind := KindOf(ParseCommand(text).cmd.value);
        && CommandDone(chat, kind, ParseCommand(text).rest, env)
        && (kind != CancelCmd ==> RegistryKept())
        && (kind != VerboseCmd && kind != CdCmd ==> SettingsKept())
        && (!DrivesTmux(kind) ==> BridgeKept())
    {
      var c := ParseCommand(text);
      if c.cmd.None? {
        AcceptFreeText(chat, text, env.now);
        return;
      }
      DispatchCommand(chat, KindOf(c.cmd.value), c.rest, env);
    }

    /** A command, once its kind is known. */
    method DispatchCommand(chat: Value, kind: CommandKind, rest: string, env: Env)
      requires Valid()
      modifies this
      ensures Valid() && HostKept() && usedIds == old(usedIds) && AnswersOnlyPending()
      ensures CommandDone(chat, kind, rest, env)
      ensures kind != CancelCmd ==> RegistryKept()
      ensures kind != VerboseCmd && kind != CdCmd ==> SettingsKept()
      ensures !DrivesTmux(kind) ==> BridgeKept()
    {
      if DrivesTmux(kind) {
        RunTmuxCommand(chat, kind, rest, env);
      } else {
        RunLocalCommand(chat, kind, rest, env);
      }
    }

    /**
     * What `handleMessage(message)` leaves behind: the refusal for an
     * unauthorised sender; otherwise free text answers the waiting question
     * and a command has its own outcome.
     */
    twostate predicate MessageDone(new msg: ChatMessage, new env: Env)
      reads this
    {
      && (!Authorized(old(config), msg.userId) ==>
            RegistryKept() && SettingsKept() && BridgeKept() && outbox == old(outbox) + [Message(msg.chat, UnauthorizedText)])
      && (Authorized(old(config), msg.userId) && ParseCommand(msg.text).cmd.None? ==>
            && Registry() == Broker.AcceptText(old(Registry()), msg.text, env.now) && SettingsKept() && BridgeKept()
            && outbox == old(outbox) + (if Broker.FirstAwaiting(old(pending)).Some? then [Message(msg.chat, ReceivedText(msg.text))] else []))
      && (Authorized(old(config), msg.userId) && ParseCommand(msg.text).cmd == Some("/cancel") ==>
            Registry() == Broker.CancelAll(old(Registry()), env.now))
      && (Authorized(old(config), msg.userId) && ParseCommand(msg.text).cmd.Some? ==>
            var kind := KindOf(ParseCommand(msg.text).cmd.value);
            && CommandDone(msg.chat, kind, ParseCommand(msg.text).rest, env)
            && (kind != CancelCmd ==> RegistryKept())
            && (kind != VerboseCmd && kind != CdCmd ==> SettingsKept())
            && (!DrivesTmux(kind) ==> BridgeKept()))
    }

    /** `handleMessage(message)`: an unauthorised sender only gets the refusal. */
    method HandleMessage(msg: ChatMessage, env: Env)
      requires Valid()
      modifies this
      ensures Valid() && HostKept() && usedIds == old(usedIds) && AnswersOnlyPending()
      ensures MessageDone(msg, env)
    {
      if !Authorized(config, msg.userId) {
        Tell(msg.chat, UnauthorizedText);
        return;
      }
      CancelCommand();
      Dispatch(msg.chat, msg.text, env);
    }

    /**
     * What `handleCallbackQuery(callbackQuery)` leaves behind: the refusal,
     * the parse error, or the Other and option transitions of the registry
     * with the source's answers.
     */
    twostate predicate PressDone(new query: CallbackQuery, new now: int)
      reads this
    {
      && (!Authorized(old(config), query.userId) ==>
            RegistryKept() && outbox == old(outbox) + [CallbackAnswer(query.queryId, Some("Unauthorized"))])
      && (Authorized(old(config), query.userId) && query.data.Malformed? ==>
            RegistryKept() && outbox == old(outbox) + [CallbackAnswer(query.queryId, Some("Error processing"))])
      && (Authorized(old(config), query.userId) && query.data.OtherPressed? ==>
            && Registry() == Broker.MarkOther(old(Registry()))
            && outbox == old(outbox) + (if |old(pending)| > 0 then [CallbackAnswer(query.queryId, None), Message(query.chat, TypeResponseText)] else []))
      && (Authorized(old(config), query.userId) && query.data.OptionPressed? ==>
            var q, o := query.data.q, query.data.o;
            && Registry() == Broker.SelectOption(old(Registry()), q, o, now)
            && outbox == old(outbox) + CallbackReplies(Broker.Select(old(Registry()), q, o), query))
    }

    /**
     * `handleCallbackQuery(callbackQuery)`: button presses resolve against the
     * first pending question set, whichever message the button belongs to.
     */
    method HandleCallbackQuery(query: CallbackQuery, now: int)
      requires Valid()
      modifies this
      ensures Valid() && SettingsKept() && BridgeKept() && HostKept() && usedIds == old(usedIds)
      ensures AnswersOnlyPending()
      ensures PressDone(query, now)
    {
      if !Authorized(config, query.userId) {
        outbox := outbox + [CallbackAnswer(query.queryId, Some("Unauthorized"))];
        return;
      }
      match query.data
      case Malformed =>
        outbox := outbox + [CallbackAnswer(query.queryId, Some("Error processing"))];
      case OtherPressed => PressOther(query);
      case OptionPressed(q, o) => PressOption(query, q, o, now);
    }

    /** "Other": the first pending question set now waits for typed text. */
    method PressOther(query: CallbackQuery)
      requires Valid()
      modifies this
      ensures Valid() && SettingsKept() && BridgeKept() && HostKept() && usedIds == old(usedIds)
      ensures AnswersOnlyPending()
      ensures Registry() == Broker.MarkOther(old(Registry()))
      ensures outbox == old(outbox) + (if |old(pending)| > 0 then [CallbackAnswer(query.queryId, None), Message(query.chat, TypeResponseText)] else [])
    {
      Broker.MarkOtherSpec(Registry());
      if |pending| > 0 {
        assert Broker.Ids(Broker.MarkOther(Registry()).pending) == Broker.Ids(pending) by {
          SameIds(pending, Broker.MarkOther(Registry()).pending);
        }
        var first := pending[0];
        pending := pending[0 := Broker.Slot(first.id, first.entry.(awaitingTextResponse := true))];
        outbox := outbox + [CallbackAnswer(query.queryId, None), Message(query.chat, TypeResponseText)];
      }
    }

    /** Option `o` of question `q`: recorded against the first pending set when it is valid. */
    method PressOption(query: CallbackQuery, q: Option<int>, o: Option<int>, now: int)
      requires Valid()
      modifies this
      ensures Valid() && SettingsKept() && BridgeKept() && HostKept() && usedIds == old(usedIds)
      ensures AnswersOnlyPending()
      ensures Registry() == Broker.SelectOption(old(Registry()), q, o, now)
      ensures outbox == old(outbox) + CallbackReplies(Broker.Select(old(Registry()), q, o), query)
    {
      Broker.SelectOptionSpec(Registry(), q, o, now);
      match Broker.Select(Registry(), q, o)
      case Expired =>
        outbox := outbox + [CallbackAnswer(query.queryId, Some("Question expired"))];
      case InvalidOption =>
        outbox := outbox + [CallbackAnswer(query.queryId, Some("Invalid option"))];
      case Recorded(l) =>
        var id := pending[0].id;
        responses := responses[id := Broker.Response(Broker.OptionReply, Some(l), q, o, now)];
        pending := Broker.Delete(pending, id);
        outbox := outbox + [CallbackAnswer(query.queryId, Some("Response recorded")), Message(query.chat, SelectedText(l))];
    }

    /**
     * One batch of `getUpdates`: before each update is handled, the offset
     * moves past it, so the next poll starts after the last update seen.
     */
    method PollBatch(updates: seq<Update>, env: Env)
      requires Valid()
      modifies this
      ensures Valid()
      ensures |updates| > 0 ==> pollingOffset == updates[|updates| - 1].updateId + 1
      ensures |updates| == 0 ==> pollingOffset == old(pollingOffset)
      ensures sessionInfo == old(sessionInfo) && commandQueue == old(commandQueue) && usedIds == old(usedIds)
      ensures AnswersOnlyPending()
    {
      for i := 0 to |updates|
        invariant Valid()
        invariant i > 0 ==> pollingOffset == updates[i - 1].updateId + 1
        invariant i == 0 ==> pollingOffset == old(pollingOffset)
        invariant sessionInfo == old(sessionInfo) && commandQueue == old(commandQueue) && usedIds == old(usedIds)
        invariant Broker.WritesOnlyPending(old(Registry()), Registry())
        invariant Broker.Ids(pending) <= old(Broker.Ids(pending)) && old(responses).Keys <= responses.Keys
      {
        pollingOffset := updates[i].updateId + 1;
        ghost var before := Registry();
        HandleUpdate(updates[i], env);
        Broker.WritesCompose(old(Registry()), before, Registry());
      }
    }

    /** One update of a batch: a chat message, a button press, or anything else, which is ignored. */
    method HandleUpdate(update: Update, env: Env)
      requires Valid()
      modifies this
      ensures Valid() && HostKept() && usedIds == old(usedIds) && AnswersOnlyPending()
      ensures update.kind.MessageUpdate? ==> MessageDone(update.kind.message, env)
      ensures update.kind.CallbackUpdate? ==> PressDone(update.kind.query, env.now) && SettingsKept() && BridgeKept()
      ensures update.kind.OtherUpdate? ==> RegistryKept() && SettingsKept() && BridgeKept() && outbox == old(outbox)
    {
      match update.kind {
        case MessageUpdate(m) => HandleMessage(m, env);
        case CallbackUpdate(q) => HandleCallbackQuery(q, env.now);
        case OtherUpdate =>
      }
    }

    // -------------------------------------------------------------------------
    // HTTP API
    // -------------------------------------------------------------------------

    /** What `/api/notify` leaves behind: the reply and, for a formatted event, the message sent. */
    twostate predicate NotifyDone(new body: RequestBody, new env: Env, new reply: Reply)
      reads this`config, this`outbox
    {
      && (body.InvalidJson? ==> reply == Reply(500, Failure("Invalid JSON")) && outbox == old(outbox))
      && (body.Body? ==>
            match NotifyOutcome(body.fields, TruthyOpt(Get(config, "verbose_mode")), env)
            case Err(m) => reply == Reply(400, Failure(m)) && outbox == old(outbox)
            case Ok(None) => reply == Reply(200, SkippedEvent) && outbox == old(outbox)
            case Ok(Some(text)) => reply == Reply(200, Succeeded) && outbox == old(outbox) + [Message(ChatOf(config), text)])
    }

    /** `POST /api/notify`: formats the event (or the legacy message) and sends it to the configured chat. */
    method Notify(body: RequestBody, env: Env) returns (reply: Reply)
      requires Valid()
      modifies this
      ensures Valid()
      ensures RegistryKept() && SettingsKept() && BridgeKept() && HostKept()
      ensures NotifyDone(body, env, reply)
    {
      if body.InvalidJson? {
        return Reply(500, Failure("Invalid JSON"));
      }
      match NotifyOutcome(body.fields, TruthyOpt(Get(config, "verbose_mode")), env)
      case Err(m) =>
        reply := Reply(400, Failure(m));
      case Ok(None) =>
        reply := Reply(200, SkippedEvent);
      case Ok(Some(text)) =>
        Tell(ChatOf(config), text);
        reply := Reply(200, Succeeded);
    }

    /**
     * What `/api/ask` leaves behind up to the wait: 500 or 400 with nothing
     * registered or sent, or the question set registered under `id` and
     * sent with its keyboard.
     */
    twostate predicate AskDone(new body: RequestBody, new id: string, new env: Env, new reply: Option<Reply>)
      reads this`pending, this`responses, this`usedIds, this`config, this`outbox
    {
      && (body.InvalidJson? ==>
            reply == Some(Reply(500, Failure("Invalid JSON"))) && Registry() == old(Registry()) && usedIds == old(usedIds) && outbox == old(outbox))
      && (body.Body? && !AsksQuestions(body.fields) ==>
            && reply == Some(Reply(400, Failure("questions array required")))
            && Registry() == old(Registry()) && usedIds == old(usedIds) && outbox == old(outbox))
      && (body.Body? && AsksQuestions(body.fields) ==>
            var qs := ToQuestions(body.fields["questions"].elems);
            && reply.None?
            && Registry() == Broker.Insert(old(Registry()), id, Broker.Entry(qs, env.now, false))
            && usedIds == old(usedIds) + {id}
            && outbox == old(outbox) + [AskMessage(ChatOf(config), qs)])
    }

    /**
     * `POST /api/ask`, up to the wait: the question set is registered under
     * the new correlation id and sent with its keyboard. `None` means the
     * request now waits (see `AskPoll`).
     */
    method AskBegin(body: RequestBody, id: string, env: Env) returns (reply: Option<Reply>)
      requires Valid()
      requires id !in usedIds
      modifies this
      ensures Valid()
      ensures SettingsKept() && BridgeKept() && HostKept()
      ensures AskDone(body, id, env, reply)
    {
      if body.InvalidJson? {
        return Some(Reply(500, Failure("Invalid JSON")));
      }
      if !AsksQuestions(body.fields) {
        return Some(Reply(400, Failure("questions array required")));
      }
      AskPost(ToQuestions(body.fields["questions"].elems), id, env.now);
      return None;
    }

    /** A valid question set is registered under a fresh id and sent with its keyboard. */
    method AskPost(qs: seq<Question>, id: string, now: int)
      requires Valid()
      requires id !in usedIds
      modifies this
      ensures Valid()
      ensures SettingsKept() && BridgeKept() && HostKept()
      ensures Registry() == Broker.Insert(old(Registry()), id, Broker.Entry(qs, now, false))
      ensures usedIds == old(usedIds) + {id}
      ensures outbox == old(outbox) + [AskMessage(ChatOf(config), qs)]
    {
      var text, keyboard := FormatQuestionsForTelegram(qs);
      Broker.InsertSpec(Registry(), id, Broker.Entry(qs, now, false));
      pending := pending + [Broker.Slot(id, Broker.Entry(qs, now, false))];
      usedIds := usedIds + {id};
      outbox := outbox + [KeyboardMessage(ChatOf(config), TelegramApi.StatusEmoji("question") + AskHeading + text, keyboard)];
    }

    /**
     * One turn of the `/api/ask` wait loop at time `now`: before the deadline
     * a recorded response is taken and returned, otherwise the wait goes on;
     * at the deadline the question leaves the pending map and the request
     * times out, even if a response has been recorded meanwhile.
     */
    method AskPoll(id: string, start: int, timeout: int, now: int) returns (reply: Option<Reply>)
      requires Valid()
      modifies this
      ensures Valid()
      ensures usedIds == old(usedIds) && SettingsKept() && BridgeKept() && HostKept() && outbox == old(outbox)
      ensures now - start < timeout ==>
        && Registry() == Broker.Take(old(Registry()), id).0
        && (reply.Some? <==> id in old(responses))
        && (id in old(responses) ==> reply == Some(Reply(200, Answered(old(responses)[id]))))
      ensures now - start >= timeout ==>
        Registry() == Broker.Expire(old(Registry()), id) && reply == Some(Reply(408, TimedOut(id)))
    {
      if now - start < timeout {
        if id in responses {
          var response := responses[id];
          responses := responses - {id};
          return Some(Reply(200, Answered(response)));
        }
        return None;
      }
      Broker.ExpireSpec(Registry(), id);
      pending := Broker.Delete(pending, id);
      return Some(Reply(408, TimedOut(id)));
    }

    /** `GET /api/response/<id>`: a non-blocking, read-once lookup. */
    method ResponseLookup(id: string) returns (reply: Reply)
      requires Valid()
      modifies this
      ensures Valid()
      ensures usedIds == old(usedIds) && SettingsKept() && BridgeKept() && HostKept() && outbox == old(outbox)
      ensures Registry() == Broker.Take(old(Registry()), id).0
      ensures id in old(responses) ==> reply == Reply(200, Found(old(responses)[id]))
      ensures id !in old(responses) ==> reply == Reply(200, NotFound)
    {
      if id in responses {
        var response := responses[id];
        responses := responses - {id};
        return Reply(200, Found(response));
      }
      return Reply(200, NotFound);
    }

    /** `POST /api/session`: the body's keys are merged over the session record. */
    method SessionUpdate(body: RequestBody) returns (reply: Reply)
      requires Valid()
      modifies this
      ensures Valid()
      ensures RegistryKept() && SettingsKept() && BridgeKept() && outbox == old(outbox)
      ensures commandQueue == old(commandQueue) && pollingOffset == old(pollingOffset)
      ensures body.InvalidJson? ==> reply == Reply(500, Failure("Invalid JSON")) && sessionInfo == old(sessionInfo)
      ensures body.Body? ==> reply == Reply(200, Succeeded) && sessionInfo == old(sessionInfo) + body.fields
    {
      if body.InvalidJson? {
        return Reply(500, Failure("Invalid JSON"));
      }
      sessionInfo := sessionInfo + body.fields;
      return Reply(200, Succeeded);
    }

    /** `GET /api/commands`: hands out the queued commands and empties the queue. */
    method DrainCommands() returns (reply: Reply)
      requires Valid()
      modifies this
      ensures Valid()
      ensures RegistryKept() && SettingsKept() && BridgeKept() && outbox == old(outbox)
      ensures sessionInfo == old(sessionInfo) && pollingOffset == old(pollingOffset)
      ensures reply == Reply(200, CommandList(old(commandQueue))) && commandQueue == []
    {
      reply := Reply(200, CommandList(commandQueue));
      commandQueue := [];
    }

    /**
     * `handleRequest(req, res)`: dispatches on path and method; `None` is an
     * `/api/ask` request left waiting. `id` is the correlation id a new
     * question set would get.
     */
    method HandleRequest(verb: string, path: string, body: RequestBody, id: string, env: Env) returns (reply: Option<Reply>)
      requires Valid()
      requires id !in usedIds
      modifies this
      ensures Valid() && SettingsKept() && BridgeKept() && pollingOffset == old(pollingOffset)
      ensures reply.None? ==> RouteOf(verb, path).AskRoute?
      ensures RouteOf(verb, path).NoRoute? ==>
        reply == Some(Reply(404, Failure("not found"))) && RegistryKept() && HostKept() && outbox == old(outbox)
      ensures RouteOf(verb, path).HealthRoute? ==>
        reply == Some(Reply(200, Healthy)) && RegistryKept() && HostKept() && outbox == old(outbox)
      ensures !RouteOf(verb, path).AskRoute? && !RouteOf(verb, path).ResponseRoute? ==> RegistryKept()
      ensures RouteOf(verb, path).NotifyRoute? ==> reply.Some? && NotifyDone(body, env, reply.value) && HostKept()
      ensures RouteOf(verb, path).AskRoute? ==> AskDone(body, id, env, reply) && HostKept()
      ensures RouteOf(verb, path).ResponseRoute? ==>
        var cid := RouteOf(verb, path).correlationId;
        && Registry() == Broker.Take(old(Registry()), cid).0
        && reply == Some(Reply(200, if cid in old(responses) then Found(old(responses)[cid]) else NotFound))
        && HostKept() && outbox == old(outbox)
      ensures RouteOf(verb, path).SessionRoute? ==>
        && reply == Some(if body.InvalidJson? then Reply(500, Failure("Invalid JSON")) else Reply(200, Succeeded))
        && sessionInfo == (if body.InvalidJson? then old(sessionInfo) else old(sessionInfo) + body.fields)
        && commandQueue == old(commandQueue) && outbox == old(outbox)
      ensures RouteOf(verb, path).CommandsRoute? ==>
        && reply == Some(Reply(200, CommandList(old(commandQueue))))
        && commandQueue == [] && sessionInfo == old(sessionInfo) && outbox == old(outbox)
    {
      match RouteOf(verb, path)
      case HealthRoute =>
        reply := Some(Reply(200, Healthy));
      case NotifyRoute =>
        var r := Notify(body, env);
        reply := Some(r);
      case AskRoute =>
        reply := AskBegin(body, id, env);
      case ResponseRoute(correlationId) =>
        var r := ResponseLookup(correlationId);
        reply := Some(r);
      case SessionRoute =>
        var r := SessionUpdate(body);
        reply := Some(r);
      case CommandsRoute =>
        var r := DrainCommands();
        reply := Some(r);
      case NoRoute =>
        reply := Some(Reply(404, Failure("not found")));
    }
  }

  /** What a command name selects in `handleMessage`. */
  datatype CommandKind =
    | HelpCmd | StatusCmd | CancelCmd | VerboseCmd | TmuxStartCmd | TmuxStopCmd | TmuxTailCmd | CdCmd | SendCmd
    | UnknownCmd(name: string)

  /** The command names `handleMessage` dispatches on; `/start` and `/help` share a branch. */
  const Commands: map<string, CommandKind> := map[
    "/start" := HelpCmd, "/help" := HelpCmd, "/status" := StatusCmd, "/cancel" := CancelCmd,
    "/verbose" := VerboseCmd, "/tmux_start" := TmuxStartCmd, "/tmux_stop" := TmuxStopCmd,
    "/tmux_tail" := TmuxTailCmd, "/cd" := CdCmd, "/send" := SendCmd]

  function KindOf(cmd: string): (k: CommandKind)
    ensures k.UnknownCmd? <==> cmd !in Commands
    ensures k.UnknownCmd? ==> k.name == cmd
  {
    if cmd in Commands then Commands[cmd] else UnknownCmd(cmd)
  }

  /** `/cancel` selects the cancel branch. */
  lemma CancelCommand()
    ensures KindOf("/cancel") == CancelCmd
  {
    assert "/cancel" in Commands;
  }

  /** The commands that drive the tmux session. */
  predicate DrivesTmux(kind: CommandKind) {
    kind == TmuxStartCmd || kind == TmuxStopCmd || kind == TmuxTailCmd || kind == SendCmd
  }

  /** The loop of `/cancel`: each pending id in turn is answered as cancelled. */
  method RecordCancellations(responses: map<string, Broker.Response>, pending: seq<Broker.Slot>, now: int)
    returns (cancelled: map<string, Broker.Response>)
    ensures cancelled == responses + Broker.CancelMap(pending, now)
    ensures cancelled.Keys == responses.Keys + Broker.Ids(pending)
    ensures forall i :: 0 <= i < |pending| ==> cancelled[pending[i].id] == Broker.CancelledAt(now)
  {
    cancelled := responses;
    for i := 0 to |pending|
      invariant cancelled == responses + Broker.CancelMap(pending[..i], now)
    {
      CancelMapStep(pending, i, now);
      MergeUpdate(responses, Broker.CancelMap(pending[..i], now), pending[i].id, Broker.CancelledAt(now));
      cancelled := cancelled[pending[i].id := Broker.CancelledAt(now)];
    }
    assert pending[..|pending|] == pending;
    CancelMerge(responses, pending, now);
  }

  /** Updating the right operand of a merge is updating the merge. */
  lemma MergeUpdate<K, V>(a: map<K, V>, b: map<K, V>, k: K, v: V)
    ensures a + b[k := v] == (a + b)[k := v]
  {
  }

  /** Merging the cancelled answers adds exactly the pending ids, each answered as cancelled. */
  lemma CancelMerge(responses: map<string, Broker.Response>, pending: seq<Broker.Slot>, now: int)
    ensures (responses + Broker.CancelMap(pending, now)).Keys == responses.Keys + Broker.Ids(pending)
    ensures forall i :: 0 <= i < |pending| ==> (responses + Broker.CancelMap(pending, now))[pending[i].id] == Broker.CancelledAt(now)
  {
    forall i | 0 <= i < |pending|
      ensures pending[i].id in Broker.Ids(pending)
    {
      assert pending[i] in pending;
    }
  }

  /** Entries with the same ids position by position have the same id set. */
  lemma SameIds(a: seq<Broker.Slot>, b: seq<Broker.Slot>)
    requires |a| == |b|
    requires forall i :: 0 <= i < |a| ==> a[i].id == b[i].id
    ensures Broker.Ids(a) == Broker.Ids(b)
  {
    forall k | k in Broker.Ids(a)
      ensures k in Broker.Ids(b)
    {
      var x :| x in a && x.id == k;
      var i :| 0 <= i < |a| && a[i] == x;
      assert b[i] in b;
    }
    forall k | k in Broker.Ids(b)
      ensures k in Broker.Ids(a)
    {
      var x :| x in b && x.id == k;
      var i :| 0 <= i < |b| && b[i] == x;
      assert a[i] in a;
    }
  }

  /** Answering the i-th pending id as cancelled extends the cancelled map by that id. */
  lemma CancelMapStep(pending: seq<Broker.Slot>, i: nat, now: int)
    requires i < |pending|
    ensures Broker.CancelMap(pending[..i + 1], now) == Broker.CancelMap(pending[..i], now)[pending[i].id := Broker.CancelledAt(now)]
  {
    assert pending[..i + 1] == pending[..i] + [pending[i]];
    assert Broker.Ids(pending[..i + 1]) == Broker.Ids(pending[..i]) + {pending[i].id};
  }
}

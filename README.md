# rw-telegram: a verified model of the worker, its formatters and its hooks

rw-telegram bridges an AI coding assistant and a Telegram chat. Hooks post
notifications to a background **worker** over a local HTTP API. The worker
formats them and sends them to the configured chat. When the assistant asks a
question, the worker sends it with an inline keyboard and holds the HTTP
request open. A button press, or typed text after "Other", answers the
question. The worker also answers chat commands (`/status`, `/cancel`,
`/verbose`, `/cd`, `/send`, `/tmux_*`), and these drive a tmux session that
runs the assistant.

This project models that core in Dafny:

| file | models |
|---|---|
| `Base.dfy` | `Option`, `Result`, `Min`, `Max` |
| `Text.dfy` | the JavaScript string operations the code relies on: `trim`, `toLowerCase` (ASCII letters only), `split`, `join`, `slice` with negative indices, number to text |
| `Json.dfy` | JSON values, truthiness, property reads that may be `undefined`, `String(v)` |
| `Config.dfy` | `DEFAULT_CONFIG`, `loadConfig`, `updateConfig`, `validateConfig` over an abstract config file |
| `Utils.dfy` | `parseCommand`, `isUserAllowed`, `truncate`, `stripAnsi`, `formatQuestionsForTelegram` (a method with loops) |
| `TelegramApi.dfy` | `chunkText` (a method with loops, proved against a specification function), `statusEmoji`, `formatNotification` |
| `Formatter.dfy` | the lookup tables, `truncateText`, `isSummaryEvent`, the header and footer of `formatSummaryEvent` and `formatToolEvent`, `formatNotificationMessage` |
| `NotifyHook.dfy` | `analyzeTranscript`, `NOTIFICATION_TYPES`, and the gating and message assembly of the notify hook's `main` |
| `Broker.dfy` | the question registry as values: pending question sets in insertion order, recorded responses, and every transition applied to them |
| `WorkerSpec.dfy` | the worker's pure parts: `getWorkdir`, `parseInt`, the `/tmux_tail` and `/verbose` argument handling, the reply texts, the `/status` report, request routing, request-body decoding |
| `Worker.dfy` | the worker itself, as a class whose fields are its module-level state, with one method per handler |

The worker's state lives in `Worker.Worker`:

- the pending question sets, a sequence of `(id, entry)` pairs with unique ids;
- the responses;
- the command queue, the session record and the configuration;
- the polling offset and the tmux session flag.

Messages the worker would send are appended to `outbox`. tmux invocations
that create, type into, read or kill the session are appended to `tmuxLog`.

Every registry handler is proved to perform exactly the matching `Broker`
transition. The `Broker` lemmas state what those transitions guarantee:
first-in-line resolution, read-once delivery, and timeouts that remove only
the pending entry. Every handler keeps `Valid`:

- the registry is well-formed;
- no text typed into tmux is longer than 4000 characters (code points, see below);
- every capture asks for 10 to 500 lines;
- every question keyboard ends with the "Other" row.

Where the repository's own description and the code differ, the model
follows the code:

- A request body that is not valid JSON gets HTTP 500 `Invalid JSON`, not 400.
- The polling offset becomes `update_id + 1` just before each update is handled.
- `chunkText` drops every empty line it meets while its buffer is empty: before the first non-empty line, right after the slices of a long line, and right after a flush. Lines of white space are kept.
- `/status` filters out every empty line, including the separators.
- The `/tmux_tail` header names the requested line count, while the capture uses the count clamped to 10..500.

## Model

| member | source | states |
|---|---|---|
| Config.LoadConfig | plugins/rw-telegram/lib/config.mjs:40-55 | a missing or unparsable file yields exactly the defaults; otherwise every file key overrides and every other default key keeps its default value (shallow merge) |
| Config.UpdateConfig | plugins/rw-telegram/lib/config.mjs:73-78 | keys in the updates take the update values; every other loaded key keeps its loaded value |
| Config.ValidateConfig | plugins/rw-telegram/lib/config.mjs:84-100 | valid iff there are no errors; `bot_token is required` is present iff the token is falsy, and likewise for `chat_id`; with both, they come in that order |
| Config.UpdateThenLoad | plugins/rw-telegram/lib/config.mjs:61-78 | loading the file that `updateConfig` saved gives back exactly what `updateConfig` returned |
| Config.UpdateIdempotent | plugins/rw-telegram/lib/config.mjs:73-78 | applying the same update twice gives the same configuration as applying it once |
| Config.MissingFileInvalid | plugins/rw-telegram/lib/config.mjs:14-25 | with no config file, validation fails with both errors, in order |
| Utils.ParseCommand | plugins/rw-telegram/lib/utils.mjs:78-83 | trimmed text not starting with `/` yields no command, and the trimmed text as rest |
| Utils.ParseCommandShape | plugins/rw-telegram/lib/utils.mjs:85-89 | for command text, cmd is the first space-separated token cut at the first `@` and lower-cased, and it still starts with `/`; rest is everything after the first space, trimmed |
| Utils.IsUserAllowed | plugins/rw-telegram/lib/utils.mjs:127-132 | true when the allowlist is missing, not an array or empty; otherwise true iff the id is in the list |
| Utils.Truncate | plugins/rw-telegram/lib/utils.mjs:56-60 | unchanged when it fits; otherwise exactly `maxLength` long, ending in `...`, and starting with the first `maxLength - 3` characters |
| Utils.StripAnsi | plugins/rw-telegram/lib/utils.mjs:46-48 | never longer than the input |
| Utils.StripAnsiNoEscape | plugins/rw-telegram/lib/utils.mjs:46-48 | text without an ESC character is left unchanged |
| Utils.StripAnsiNoNewEscape | plugins/rw-telegram/lib/utils.mjs:46-48 | stripping never introduces an ESC character |
| Utils.OptionRows | plugins/rw-telegram/lib/utils.mjs:143-159 | there is one keyboard row per question with options, each question's row is present, and every button points back, by its `(q, o)` callback, to an option whose label is its text |
| Utils.FormatQuestionsForTelegram | plugins/rw-telegram/lib/utils.mjs:139-168 | the text is the question and option lines joined by newlines; the keyboard is the option rows followed by the single "Other" row, and every option button points back to its option |
| TelegramApi.SliceLine | plugins/rw-telegram/lib/telegram-api.mjs:55-59 | the slicing loop produces exactly the `maxLength`-sized slices of the line |
| TelegramApi.ChunkText | plugins/rw-telegram/lib/telegram-api.mjs:44-70 | the buffer-and-flush loop returns a non-empty list of chunks, each at most `maxLength` long; empty text gives `['']`, and otherwise the result is `['']` or has no empty chunk; with every `\n` removed, the chunks carry exactly the text of the lines |
| TelegramApi.ChunksBounded | plugins/rw-telegram/lib/telegram-api.mjs:49-69 | every chunk has length at most `maxLength`, and either the result is `['']` or no chunk is empty |
| TelegramApi.ChunksPreserveText | plugins/rw-telegram/lib/telegram-api.mjs:45-68 | for input without `\r`, the chunks with every `\n` removed equal the input with every `\n` removed: nothing is lost or reordered |
| TelegramApi.ShortLinesNotSplit | plugins/rw-telegram/lib/telegram-api.mjs:52-64 | every line no longer than `maxLength` appears whole inside one chunk |
| TelegramApi.LongLinesSliced | plugins/rw-telegram/lib/telegram-api.mjs:55-58 | a line longer than `maxLength` is cut into at least two slices, all but the last exactly `maxLength` long, which concatenate back to the line |
| TelegramApi.FittingTextNotSplit | plugins/rw-telegram/lib/telegram-api.mjs:49-69 | text that fits, does not start with a newline and has no `\r` comes back as a single chunk |
| TelegramApi.ChunksOfEmpty | plugins/rw-telegram/lib/telegram-api.mjs:69 | empty text gives exactly `['']`, the fallback for an empty chunk list |
| TelegramApi.LeadingNewlineDropped | plugins/rw-telegram/lib/telegram-api.mjs:50 | a leading blank line is not kept: `"\nok"` chunks to `["ok"]` |
| TelegramApi.StatusEmoji | plugins/rw-telegram/lib/telegram-api.mjs:180-194 | the table's entry for a known status, and the robot emoji exactly for unknown ones |
| TelegramApi.FormatNotification | plugins/rw-telegram/lib/telegram-api.mjs:202-215 | starts with `emoji *project*`, where status defaults to `info` and project to `Claude Code`; has the cwd line iff cwd is non-empty; ends with the message and then the timestamp |
| Formatter.GetToolEmoji | plugins/rw-telegram/lib/formatter.mjs:48-50 | the table's entry, or the gear emoji for unknown tools |
| Formatter.GetStatusEmoji | plugins/rw-telegram/lib/formatter.mjs:55-57 | the table's entry for a known status, and the robot emoji exactly for statuses outside the table |
| Formatter.GetEventLabel | plugins/rw-telegram/lib/formatter.mjs:359-374 | the table's label, and `Update` exactly for unknown events |
| Formatter.SummaryEventsAreLabelled | plugins/rw-telegram/lib/formatter.mjs:359-374 | an event is one of the eleven summary events iff it has a label of its own in the label table (lines 478-494) |
| Formatter.TruncateText | plugins/rw-telegram/lib/formatter.mjs:62-67 | `''` for falsy input; otherwise the trimmed text if it fits, or else exactly `maxLength` characters: its first `maxLength - 3` characters then `...` |
| Formatter.SummaryBodyBlocks | plugins/rw-telegram/lib/formatter.mjs:396-466 | every part of a summary body is a blank line followed by content |
| Formatter.FormatSummaryEvent | plugins/rw-telegram/lib/formatter.mjs:380-473 | the first line is `emoji project \| label`, with project defaulting to `Claude Code`; the message ends with a blank line and then the clock line |
| Formatter.FormatToolEvent | plugins/rw-telegram/lib/formatter.mjs:337-341 | starts with the header line and a blank line, the header being `❓ Question` for `AskUserQuestion` (line 316) and `emoji toolName` otherwise; ends with a blank line and then the clock line (the layout at lines 202-208) |
| Formatter.FormatNotificationMessage | plugins/rw-telegram/lib/formatter.mjs:499-526 | `tool` events are sent iff verbose mode is on and a tool name is present; in verbose mode other events are always sent, in the tool layout when a tool name is present and the summary layout otherwise; in summary mode they are sent iff they are summary events |
| NotifyHook.NonBlank | plugins/rw-telegram/scripts/notify-hook.js:66 | every kept line is non-blank after trimming, and every non-blank line is kept; order and multiplicity come from `NonBlankAppend` |
| NotifyHook.NonBlankAppend | plugins/rw-telegram/scripts/notify-hook.js:66 | the filter distributes over concatenation, so the kept lines stay in transcript order and the last 15 are the most recent ones |
| NotifyHook.LastN | plugins/rw-telegram/scripts/notify-hook.js:69 | the last `min(n, count)` lines |
| NotifyHook.Classify | plugins/rw-telegram/scripts/notify-hook.js:73-100 | limit keywords win over error keywords, which win over the review check; `review` iff a read pattern occurs and no write pattern does; `stop` otherwise |
| NotifyHook.AnalyzeTranscript | plugins/rw-telegram/scripts/notify-hook.js:59-105 | a missing transcript is `stop` with no details; otherwise the kind is that of the recent text, and each kind has its fixed details, `stop` carrying the last three lines truncated to 200 characters |
| NotifyHook.OnlyRecentLinesMatter | plugins/rw-telegram/scripts/notify-hook.js:66-70 | two transcripts with the same last 15 non-blank lines classify alike |
| NotifyHook.BlankLinesIgnored | plugins/rw-telegram/scripts/notify-hook.js:66 | a blank line in front of a transcript changes nothing |
| NotifyHook.UnknownKindIsStop | plugins/rw-telegram/scripts/notify-hook.js:22-53 | every type outside the seven listed uses the `stop` configuration (the fallback at line 147) |
| NotifyHook.ComposeMessage | plugins/rw-telegram/scripts/notify-hook.js:150-160 | the message starts with the title, project and path lines; it ends with the fenced details when there are any, and is exactly the header when there is neither description nor details |
| NotifyHook.HookMain | plugins/rw-telegram/scripts/notify-hook.js:107-198 | a notification is posted iff the configuration is valid and, for `stop` and `end`, the event's enable flag is on; for `stop` the status and details come from the transcript; `end` also marks the session inactive |
| NotifyHook.MissingConfigSendsNothing | plugins/rw-telegram/scripts/notify-hook.js:115-119 | without a config file the hook sends nothing |
| Broker.Delete | plugins/rw-telegram/scripts/worker.mjs:257 | exactly the entries with other ids remain (their order is stated by `DeleteAppend`), and a missing id changes nothing |
| Broker.DeleteAppend | plugins/rw-telegram/scripts/worker.mjs:257 | deleting distributes over concatenation, so the remaining entries keep their relative order |
| Broker.DeleteAt | plugins/rw-telegram/scripts/worker.mjs:514 | with unique ids, deleting the id at position i removes exactly that position (the same deletion at lines 257 and 666) |
| Broker.FirstAwaiting | plugins/rw-telegram/scripts/worker.mjs:243-244 | the position of the first entry waiting for typed text, or none if no entry is waiting |
| Broker.OptionAt | plugins/rw-telegram/scripts/worker.mjs:502 | an option exists iff both indices are in range |
| Broker.AcceptTextSpec | plugins/rw-telegram/scripts/worker.mjs:242-265 | plain text answers the first waiting entry with a `text` response holding the text and removes that entry, leaving the others in place; with no waiting entry nothing changes |
| Broker.AcceptTextValid | plugins/rw-telegram/scripts/worker.mjs:242-265 | the free-text path keeps the registry well-formed and writes only the id it resolves |
| Broker.MarkOtherSpec | plugins/rw-telegram/scripts/worker.mjs:474-485 | "Other" sets the waiting flag on the first pending entry only; it writes no response and removes nothing |
| Broker.SelectOptionSpec | plugins/rw-telegram/scripts/worker.mjs:488-516 | with indices in range on the first pending entry, records an `option` response with that option's label and both indices, then deletes the entry; with nothing pending or an index out of range, nothing changes |
| Broker.CancelAllSpec | plugins/rw-telegram/scripts/worker.mjs:316-330 | with entries pending, every pending id gets a `cancelled` response with a null value and the pending map is emptied, other responses kept; with none pending nothing changes |
| Broker.InsertSpec | plugins/rw-telegram/scripts/worker.mjs:634-642 | a fresh id goes to the end of the pending map and keeps it well-formed |
| Broker.ExpireSpec | plugins/rw-telegram/scripts/worker.mjs:665-667 | a timeout removes only the pending entry; the responses, including one recorded meanwhile, are untouched |
| Broker.TakeOnce | plugins/rw-telegram/scripts/worker.mjs:674-678 | (with the wait loop at lines 656-660) a taken response is the recorded one and is deleted as it is returned, so a second take finds nothing; a miss changes nothing |
| Broker.LateReplyIgnored | plugins/rw-telegram/scripts/worker.mjs:665-667 | after a timeout purged a question, no typed reply (lines 242-265), press (lines 488-516) or `/cancel` (lines 316-330) can answer it |
| Broker.WritesCompose | plugins/rw-telegram/scripts/worker.mjs:536-544 | two handler steps that answer only pending questions together answer only questions pending at the start |
| Broker.OptionReachesAsker | plugins/rw-telegram/scripts/worker.mjs:637-660 | with nothing else pending, a valid press (lines 488-516) on a new question set delivers that option to the asker, exactly once |
| Broker.OtherThenTextReachesAsker | plugins/rw-telegram/scripts/worker.mjs:474-485 | with nothing else pending, "Other" and then a typed reply (lines 242-265) delivers that text to the asker |
| Broker.PressAnswersOldest | plugins/rw-telegram/scripts/worker.mjs:491-514 | with two question sets pending, a press answers the older one, whichever message carried the button; the newer stays pending |
| WorkerSpec.TmuxSession | plugins/rw-telegram/scripts/worker.mjs:105-107 | the default session name when `tmux_session` is falsy or absent, and a configured non-empty name as given |
| WorkerSpec.ClaudeCmd | plugins/rw-telegram/scripts/worker.mjs:112-114 | the default command when `claude_cmd` is falsy or absent, and a configured non-empty command as given |
| WorkerSpec.CdOverridesWorkdir | plugins/rw-telegram/scripts/worker.mjs:405-420 | after `/cd path` the working directory is that path, as `getWorkdir` (lines 119-121) reads it |
| WorkerSpec.SessionCwdFallback | plugins/rw-telegram/scripts/worker.mjs:119-121 | with no configured workdir, the session's recorded cwd is used |
| WorkerSpec.StartupMatchesValidation | plugins/rw-telegram/scripts/worker.mjs:764-769 | the worker starts iff the configuration validates; it never starts without a config file |
| WorkerSpec.ParseIntRoundTrip | plugins/rw-telegram/scripts/worker.mjs:391 | `parseInt` reads back the decimal text of every natural number |
| WorkerSpec.ParseNegativeRoundTrip | plugins/rw-telegram/scripts/worker.mjs:391 | `parseInt` reads back every negative decimal number |
| WorkerSpec.ParseIntRejects | plugins/rw-telegram/scripts/worker.mjs:391 | text starting with anything but blanks, a sign or a digit is NaN |
| WorkerSpec.TailRequest | plugins/rw-telegram/scripts/worker.mjs:391 | the requested count is never 0: NaN and 0 become 50, and any other parsed number is kept |
| WorkerSpec.TailDepth | plugins/rw-telegram/scripts/worker.mjs:195 | the capture depth is always in 10..500, and equals the request when the request is in range |
| WorkerSpec.TailCommandDepth | plugins/rw-telegram/scripts/worker.mjs:189-195 | `/tmux_tail n` (parsed at line 391) captures 50 lines for 0 and otherwise n clamped to 10..500 |
| WorkerSpec.TailShownPart | plugins/rw-telegram/scripts/worker.mjs:396 | the reply shows the last `min(length, 3000)` characters of the capture |
| WorkerSpec.NextVerbose | plugins/rw-telegram/scripts/worker.mjs:333-357 | `on`/`true` give true, `off`/`false` give false, empty or `status` keep the mode, and any other argument flips it |
| WorkerSpec.ToggleTwice | plugins/rw-telegram/scripts/worker.mjs:350-351 | toggling twice restores the mode |
| WorkerSpec.SwitchesSettle | plugins/rw-telegram/scripts/worker.mjs:334-343 | after explicit switches only the last one matters, and repeating one changes nothing |
| WorkerSpec.VerboseReply | plugins/rw-telegram/scripts/worker.mjs:333-357 | asking reports the current mode; a toggle reports the new mode |
| WorkerSpec.SwitchThenAsk | plugins/rw-telegram/scripts/worker.mjs:334-347 | after `on` the report says Verbose, and after `off` it says Summary |
| WorkerSpec.FullPrompt | plugins/rw-telegram/scripts/worker.mjs:430 | the injected prompt ends with the task |
| WorkerSpec.Preview | plugins/rw-telegram/scripts/worker.mjs:435 | the task when it has at most 120 characters, else its first 120 followed by `...` |
| WorkerSpec.NonEmptyKeeps | plugins/rw-telegram/scripts/worker.mjs:309 | `filter(Boolean)` keeps exactly the non-empty lines |
| WorkerSpec.StatusLines | plugins/rw-telegram/scripts/worker.mjs:297-309 | the report lists the heading, both session lines and the workdir, then the start time only if one is recorded, then both counters, with no blank line |
| WorkerSpec.LastSegment | plugins/rw-telegram/scripts/worker.mjs:672 | `split('/').pop()` is the longest suffix without `/` |
| WorkerSpec.ResponsePathId | plugins/rw-telegram/scripts/worker.mjs:671-672 | the correlation id of `/api/response/<id>` is `<id>` |
| WorkerSpec.RouteOf | plugins/rw-telegram/scripts/worker.mjs:588-698 | a request falls through to 404 iff its path and method match none of the six routes |
| WorkerSpec.RoutesNeedMethod | plugins/rw-telegram/scripts/worker.mjs:588-698 | every route also requires its method, and a response path routes to its own id |
| WorkerSpec.AskTimeout | plugins/rw-telegram/scripts/worker.mjs:628 | the wait is 300000 ms when the key is absent, and a number as given |
| WorkerSpec.NotifyData | plugins/rw-telegram/scripts/worker.mjs:594-600 | every key of an object `data` is passed with its value; each of `project`, `toolName`, `input` and `result` that the body has and `data` does not override is passed with the body's value; no other key is passed |
| Worker.StartOutcome | plugins/rw-telegram/scripts/worker.mjs:135-160 | starting fails without tmux; it reports a new session exactly when none was running |
| Worker.SendError | plugins/rw-telegram/scripts/worker.mjs:164-184 | sending succeeds only if the session exists or can be started and `send-keys` succeeds |
| Worker.TailOutcome | plugins/rw-telegram/scripts/worker.mjs:189-204 | reading needs a running session and a successful capture; the result is never longer than the capture |
| Worker.StopOutcome | plugins/rw-telegram/scripts/worker.mjs:209-221 | stopping reports a stop exactly when a session was running |
| Worker.NotifyOutcome | plugins/rw-telegram/scripts/worker.mjs:593-623 | 400 iff neither `eventType` nor `message` is truthy; a skipped event in summary mode sends nothing; a formatted event ends with the clock line, and a legacy message ends with the message and the timestamp |
| Worker.KindOf | plugins/rw-telegram/scripts/worker.mjs:269-454 | a command name is unknown exactly when no case handles it |
| Worker.RecordCancellations | plugins/rw-telegram/scripts/worker.mjs:320-326 | the loop gives every pending id a `cancelled` response and keeps every other response |
| Worker.StartupText | plugins/rw-telegram/scripts/worker.mjs:778-780 | the startup notice is the success header under the default project name, "Worker started", then the timestamp |
| Worker.Worker.constructor | plugins/rw-telegram/scripts/worker.mjs:764-780 | loads the configuration; the registry and queue start empty, the session record inactive, the offset 0; the one message sent is the "Worker started" notice to the configured chat; the invariant holds |
| Worker.Worker.TmuxStart | plugins/rw-telegram/scripts/worker.mjs:135-160 | a no-op when a session is running; otherwise it issues one `new-session` in the working directory with the configured command, and the session runs iff that succeeds |
| Worker.Worker.TmuxSend | plugins/rw-telegram/scripts/worker.mjs:164-184 | empty text is refused with no tmux call; otherwise, when no session runs, it makes one `new-session` attempt (none without tmux); a failed start ends there with no session; then it types at most the first 4000 characters once |
| Worker.Worker.TmuxTail | plugins/rw-telegram/scripts/worker.mjs:189-204 | with a session, it captures the clamped depth and returns the output without ANSI codes or trailing blanks; without one it fails and issues nothing |
| Worker.Worker.TmuxStop | plugins/rw-telegram/scripts/worker.mjs:209-221 | a no-op without a session; otherwise it issues one `kill-session` |
| Worker.Worker.AcceptFreeText | plugins/rw-telegram/scripts/worker.mjs:242-265 | performs exactly the free-text transition and confirms only when an entry was waiting |
| Worker.Worker.Cancel | plugins/rw-telegram/scripts/worker.mjs:316-330 | performs exactly the cancel-all transition, with the matching reply |
| Worker.Worker.Verbose | plugins/rw-telegram/scripts/worker.mjs:332-358 | sets the in-memory mode as `NextVerbose` says; a change is also saved, and reloading the saved file gives the new mode |
| Worker.Worker.SetVerbose | plugins/rw-telegram/scripts/worker.mjs:335-353 | the new mode is set in the live configuration and saved, and reloading the saved file gives it back; nothing else changes |
| Worker.Worker.Status | plugins/rw-telegram/scripts/worker.mjs:294-314 | sends the filtered status report for the current state |
| Worker.Worker.TmuxStartCommand | plugins/rw-telegram/scripts/worker.mjs:365-376 | replies with the start outcome: started, already running, or the error |
| Worker.Worker.TmuxStopCommand | plugins/rw-telegram/scripts/worker.mjs:378-387 | replies with the stop outcome |
| Worker.Worker.TailCommand | plugins/rw-telegram/scripts/worker.mjs:389-403 | captures `TailDepth(TailRequest(arg))` lines and replies with the output, "no output" or the error |
| Worker.Worker.Cd | plugins/rw-telegram/scripts/worker.mjs:405-422 | without a path, reports the working directory and changes nothing; with one, sets `config.workdir` in memory only, and that path becomes the working directory |
| Worker.Worker.SendCommand | plugins/rw-telegram/scripts/worker.mjs:424-444 | without a task, replies with the usage and calls no tmux; otherwise the tmux calls are exactly the start attempt when no session ran (none without tmux) and, if a session exists or was started, the prompt ending with the task typed once, capped at 4000 characters; it replies with success or the error |
| Worker.Worker.RunTmuxCommand | plugins/rw-telegram/scripts/worker.mjs:365-444 | each tmux command has the outcome `CommandDone` gives its kind (its reply and the exact tmux invocations its handler issues, on failure as on success), and the registry and the settings stay alone |
| Worker.Worker.RunLocalCommand | plugins/rw-telegram/scripts/worker.mjs:270-358 | each other command (with `/cd` at lines 405-422 and the fallback at lines 446-453) has the outcome `CommandDone` gives its kind: the help text, the status report, the cancel-all transition and its reply, the new verbose mode and its reply, the new working directory or the usage reply, or the unknown-command reply; tmux stays alone, only `/cancel` touches the registry, and only `/verbose` and `/cd` touch the settings |
| Worker.Worker.DispatchCommand | plugins/rw-telegram/scripts/worker.mjs:268-454 | every command has the outcome `CommandDone` gives its kind, and changes only what its case changes: the registry only for `/cancel`, the settings only for `/verbose` and `/cd`, tmux only for the tmux commands |
| Worker.Worker.Dispatch | plugins/rw-telegram/scripts/worker.mjs:239-454 | non-command text performs the free-text transition and is confirmed only when an entry waited; a command has the outcome `CommandDone` gives the kind its name selects, with the rest of the text as argument |
| Worker.Worker.HandleMessage | plugins/rw-telegram/scripts/worker.mjs:227-455 | an unauthorised sender changes no registry, settings or tmux state and gets only the refusal; for an allowed sender, free text and every command have the outcomes stated for `Dispatch` |
| Worker.Worker.HandleCallbackQuery | plugins/rw-telegram/scripts/worker.mjs:460-524 | an unauthorised press changes nothing but gets "Unauthorized"; unreadable data gets "Error processing"; "Other" performs exactly the mark-other transition and answers only if something is pending; an option press performs exactly the selection transition, with the matching answers |
| Worker.Worker.PressOther | plugins/rw-telegram/scripts/worker.mjs:474-485 | exactly the mark-other transition; the acknowledgement and the prompt for typed text are sent only when a question set is pending |
| Worker.Worker.PressOption | plugins/rw-telegram/scripts/worker.mjs:487-518 | exactly the selection transition; the answers are "Question expired", "Invalid option", or "Response recorded" followed by the selected label |
| Worker.Worker.HandleUpdate | plugins/rw-telegram/scripts/worker.mjs:539-543 | a message or a press goes to its handler and answers only pending questions; any other update changes nothing |
| Worker.Worker.PollBatch | plugins/rw-telegram/scripts/worker.mjs:529-549 | after a batch the offset is the last update id plus one (unchanged for an empty batch); the handlers answer only questions pending at the start |
| Worker.Worker.Notify | plugins/rw-telegram/scripts/worker.mjs:593-623 | invalid JSON gives 500; otherwise the reply and the message sent are those of `NotifyOutcome` |
| Worker.Worker.AskBegin | plugins/rw-telegram/scripts/worker.mjs:626-650 | invalid JSON gives 500, and a missing or non-array `questions` gives 400, both before anything is inserted; otherwise the question set is inserted under the fresh id and sent with its keyboard |
| Worker.Worker.AskPost | plugins/rw-telegram/scripts/worker.mjs:634-650 | the question set is inserted under the fresh id, marked as waiting for a button, and sent with its heading and keyboard; settings, tmux and host state are kept |
| Worker.Worker.AskPoll | plugins/rw-telegram/scripts/worker.mjs:653-667 | before the deadline, a recorded response is returned and deleted; at the deadline only the pending entry is removed and the reply is 408 |
| Worker.Worker.ResponseLookup | plugins/rw-telegram/scripts/worker.mjs:671-681 | a hit returns the response and deletes it; a miss changes nothing |
| Worker.Worker.SessionUpdate | plugins/rw-telegram/scripts/worker.mjs:684-688 | the body's keys are merged over the session record |
| Worker.Worker.DrainCommands | plugins/rw-telegram/scripts/worker.mjs:691-695 | returns the queued commands and empties the queue |
| Worker.Worker.HandleRequest | plugins/rw-telegram/scripts/worker.mjs:581-704 | an unmatched path or method gives 404 and changes nothing; health replies healthy; notify has the reply and message of `NotifyDone`; ask registers and sends as `AskDone` says; `/api/response/<id>` is a read-once take of that id; session merges the body over the session record; commands hands out and empties the queue; only ask and response touch the registry |

## Left out

- The network, the HTTP server and the Telegram Bot API are outside the model. A sent message is a logical entry in `outbox`, before chunking. Every send is assumed to succeed, so errors thrown by a send, which would abort a handler or a poll batch, are not modelled.
- Process spawning is outside the model. `hasTmux`, tmux exit codes, the captured pane and the error output are inputs in `Env`. A session killed from outside the worker is not modelled: `tmuxRunning` changes only through the worker's own calls.
- Clocks, `toLocaleString`, `getShortTime` and `process.uptime` are outside the model. Times enter as numbers and as already formatted text, and the health reply carries no uptime.
- `generateCorrelationId` uses `Math.random`. Correlation ids are a parameter, required to be fresh (`usedIds`).
- The wait loop of `/api/ask` and its sleeps are modelled as separate `AskPoll` steps, and the interleaving of HTTP requests with polling is not modelled. `Worker.Worker.AskPoll` takes the timeout as a number, which `WorkerSpec.AskTimeout` derives from the body.
- `WorkerSpec.AskTimeout`: every timeout that is neither a number nor a boolean is read as 0, which expires the question at the first check. The source compares with JavaScript coercion, so a numeric string such as `"1000"` waits that long. Other strings compare as NaN and expire at once, as 0 does.
- Strings are sequences of Unicode code points. JavaScript's `length` and `slice` count UTF-16 code units, so text with characters outside the Basic Multilingual Plane (an emoji such as 🤖 counts 1 here and 2 there) is measured and cut differently, and a cut that would split a surrogate pair cannot be represented. `toLowerCase` is modelled for the ASCII letters only; other letters (`Ä`, `П`) keep their case. The members whose statements depend on this are listed one by one:
- `Utils.ParseCommandShape`: the command name is lower-cased for A–Z only, so `/Привет` stays `/Привет` where the source gives `/привет`.
- `Utils.Truncate`: the fit test and the cut count code points, not UTF-16 units.
- `TelegramApi.SliceLine`: the slices are `maxLength` code points long, not `maxLength` UTF-16 units.
- `TelegramApi.ChunkText`: the chunk bound and the split points count code points, so a line of 2000 robots with `maxLength` 3500 stays one chunk here and is cut in two by the source.
- `TelegramApi.ChunksBounded`: the bound is in code points, not UTF-16 units.
- `TelegramApi.ShortLinesNotSplit`: "no longer than `maxLength`" counts code points.
- `TelegramApi.LongLinesSliced`: "longer than `maxLength`" and the slice size count code points.
- `TelegramApi.FittingTextNotSplit`: "fits" counts code points.
- `Formatter.TruncateText`: the fit test and the cut count code points.
- `NotifyHook.AnalyzeTranscript`: the keyword match lower-cases ASCII letters only, and the 200-character cut of the details counts code points.
- `WorkerSpec.TailShownPart`: "the last 3000 characters" counts code points where `slice(-3000)` counts UTF-16 units.
- `WorkerSpec.Preview`: the 120-character limit counts code points.
- `Worker.Worker.TmuxSend`: the 4000-character cap counts code points where `text.slice(0, 4000)` counts UTF-16 units.
- `Worker.Worker.SendCommand`: the 4000-character cap on the injected prompt counts code points.
- `WorkerSpec.ToQuestion`: a non-empty string `options` is read as no options, so the question set is registered and sent. In the source `q.options.forEach` throws on it, and `/api/ask` answers 500 without registering or sending anything.
- `NotifyHook.HookMain`: the hook input is taken as an already parsed object. When stdin is not valid JSON the source skips the notification and outputs `{continue: true}`; that path is not modelled.
- `Config.LoadConfig`: a config file whose JSON is not an object, such as `[1]` or `null`, cannot be expressed by `ConfigFile`; the source spreads it over the defaults (an array by index, `null` as nothing).
- `cleanSummaryText`, `extractBashCommand`, `extractFilePath`, `formatBashResult` and the per-tool detail lines of `formatToolEvent` are regex and JSON heuristics. Their results enter as parameters.
- Request bodies that are valid JSON but not objects are not modelled, nor are question or option elements that are `null`. A non-object `data` in a notify body is ignored, whereas the source spreads a string or an array by index.
- `Worker.NotifyOutcome`: `eventType` is compared through its text form, so an array whose text is `tool` would be treated as `tool`, unlike the source.
- Callback data whose indices are not numbers, and options that are falsy, are not modelled. `callback_data` arrives already decoded as `CallbackData`.
- `Worker.Worker.Cancel` stamps every cancelled response with one time. The source reads the clock once per entry.
- `Worker.Worker.AcceptFreeText` does not reset `awaitingTextResponse` on the answered entry. The entry is deleted in the same step, so the reset is never observable.
- `WorkerSpec.ParseInt` works on unbounded integers. `parseInt` returns floating-point numbers, which lose precision above 2^53.
- `/status` has an error branch for a failing tmux check, which is not modelled, because tmux checks cannot fail in the model.
- Prototype keys such as `constructor` in the lookup tables and in `NOTIFICATION_TYPES` are not modelled; such keys behave as unknown.
- `Worker.Worker.constructor`: the startup notice is recorded in the outbox as sent; a failed send, on which `main()` removes its PID file and exits, is not modelled.
- PID files, signals and shutdown handling are outside the model. So are the MCP server, the other hooks and the CLI scripts, and `toggle-verbose.js`, whose mode logic repeats `/verbose`.
- `sendMessage`'s loop over chunks is not modelled: it only sends, and sends are outside the model. `chunkText` itself is modelled.

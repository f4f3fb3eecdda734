# Telegram control bots: a Dafny model

This project models the decision logic of the two Telegram bots in the
`claude-code-telegram-control` repository and proves properties about it.

- The **control bot** is `bot.py`. Its parts:
  - It sanitises the text of `/task`, admits a single authorised user and validates its environment at start-up.
  - It turns `/task`, `/approve`, `/reject` and `/status` into changes of a few files:
    - the status file;
    - the approval file, which is a one-slot approval gate that an outside agent creates;
    - the response file;
    - the task directory.
- The **dual-mode bot** is `bot_v3.py`. Its parts:
  - It keeps a per-chat execution-mode map that `/cloud`, `/local` and `/auto` update in place.
  - It scans the process list for a running agent.
  - It routes `/task` either to a GitHub `repository_dispatch` request or to a local exchange file.

The parts of the source that work by changing state are imperative Dafny:

- The control bot's files are the fields of class `BotHandlers.ControlBot`. Each handler method is proved equal to a specification function over a `Files` value, and the lemmas are stated about those functions.
- The mode map and the exchange file are fields of class `AgentRemote.Bot`.
- The process scan is a loop with early returns (`ModeDetection.DetectExecutionMode`), proved equal to the recursive `ModeDetection.ProbeOf`.
- `validate_configuration` appends errors step by step (`BotConfig.ValidateConfiguration`).

Pure checks are functions. These are sanitisation, authorisation, payload construction and the status-code test.

Python's semantics are written out where they matter:

- `str.strip()` and the regular-expression class `\s` use the same whitespace set. This is the full set of `str.isspace`, not only ASCII.
- `str(int)` is modelled with its parse-back.
- `dict.get(key, default)` evaluates its default first.
- `open(..., 'w')` truncates the file before writing.
- `os.getenv('GITHUB_PAT', os.getenv('GITHUB_TOKEN'))` lets a set but empty `GITHUB_PAT` hide `GITHUB_TOKEN`.

Inputs from the outside world are parameters:

- The process list is a sequence of `ModeDetection.ProcessInfo` records.
- The HTTP exchange is a `Dispatch.HttpOutcome`: a status code, or an exception.
- The clock readings are a `BotHandlers.Clock`.
- The outcome of the exchange-file write is an `AgentRemote.LocalWrite`.
- File-system faults in the control bot are `failAt`. It is the index, in program order, of the file operation that raises. The effects of the operations before it persist. `Path.write_text` counts as two operations: opening the file, which truncates it, and writing the text. So a fault in the second leaves the file empty.

Behaviours of the code that differ from its comments or from what one might expect. Each one is modelled as the code does it:

- Closing the approval gate takes two steps: write the response, then unlink the approval file (bot.py:258-259). If the unlink fails, the response file already holds the decision while the gate is still open, and a later `/reject` overwrites an `APPROVED` (`BotHandlers.ResolveIsNotAtomic`).
- `/auto` stores the mode it detects rather than clearing the chat's entry. Later tasks in that chat still run the scan, because `dict.get` evaluates its default first, but they use the stored mode whatever the scan finds (`AgentRemote.AutoPinsDetectedMode`); a scan that raises still aborts them (`AgentRemote.RaisingScanAbortsPinnedChat`).
- The dual-mode bot neither authorises senders nor sanitises the task text (`AgentRemote.TaskTextIsNotSanitized`).
- `psutil.process_iter(['name', 'cmdline'])` reports unreadable fields as `None` rather than raising `AccessDenied`. A process whose command line does not mention the agent and whose name is `None` therefore makes `proc.info['name'].lower()` raise `AttributeError`, which the scan does not catch. This is `ModeDetection.Probe.ProbeRaised`, and then `/task`, `/auto` and `/status` stop before doing anything. Because of the eager `dict.get` default, this happens even for a chat that has a stored mode (`AgentRemote.RaisingScanAbortsPinnedChat`). The scan answers one of the two modes whenever every record has a name (`ModeDetection.ProbeTotalWhenNamed`). A name is not required, though: a record whose command line mentions the agent answers "local" before its name is read, and an unreadable record is skipped (`ModeDetection.NamelessRecordsCanBeAnswered`).
- In `sanitize_task_description`, the path-separator test can fire only on `".."`. The character class has already rejected `/` and `\` (`BotInput.PathSeparatorErrorMeansDotDot`). An empty description is rejected by the `+` of the character pattern (`BotInput.SanitizeRejectsBlank`).
- In `validate_configuration`, `not STATUS_FILE` is never true because a `Path` object is always truthy. The check that fires is `str(Path(...)) == '.'`. It also fires for spellings such as `./` and `./.` (`BotConfig.CurrentDirSpellings`).

## Model

| member | source | states |
|---|---|---|
| Text.Strip | bot.py:107 | the stripped text has no whitespace at either end |
| Text.TrimStartAt | bot.py:107 | `lstrip` cuts exactly at the first non-whitespace character |
| Text.TrimEndAt | bot.py:107 | `rstrip` cuts exactly after the last non-whitespace character |
| Text.StripIsSlice | bot.py:107 | `strip` returns a slice of its input, and everything cut on either side is whitespace |
| Text.StripOfTrimmed | bot.py:107 | stripping a text with no whitespace at its ends returns it unchanged |
| Text.StripIdempotent | bot.py:107 | stripping twice is stripping once |
| Text.StripPadded | bot.py:107 | any whitespace padding around a trimmed text is exactly what `strip` removes |
| Decimal.ParseIntText | bot.py:85 | `int(str(i)) == i`: the decimal text of an integer reads back as that integer |
| Decimal.IntTextInjective | bot.py:85 | distinct integers have distinct decimal texts |
| Decimal.IntText | bot.py:85 | `str(int)`; its contract is carried by `Decimal.ParseIntText` (it reads back) and `Decimal.IntTextInjective` (it is one-to-one) |
| BotInput.Sanitize | bot.py:88-121 | `sanitize_task_description`; its contract is carried by `BotInput.SanitizeAcceptsExactlySafe`, `BotInput.SanitizedIsSafe`, `BotInput.SanitizeLengthFirst`, `BotInput.SanitizeCharactersSecond` and `BotInput.PathSeparatorErrorMeansDotDot` |
| BotInput.SanitizeMessagesIdentifyCheck | bot.py:109-119 | the three validation errors have three different texts, so the reply of bot.py:242 tells the requester which check failed |
| BotInput.TooLongMessageText | bot.py:111 | the length error reads "Description too long (max 500 chars)" |
| BotInput.SanitizeAcceptsExactlySafe | bot.py:88-121 | the description is accepted iff its stripped form is non-empty, at most 500 characters, all in the allowed class, and free of ".." |
| BotInput.SanitizedIsSafe | bot.py:106-121 | an accepted description is the stripped input, has 1 to 500 characters, and contains no '/', '\' or ".." |
| BotInput.SanitizeLengthFirst | bot.py:109-111 | the length error is raised iff the stripped text is longer than 500 characters, whatever it contains |
| BotInput.SanitizeCharactersSecond | bot.py:113-115 | the character error is raised iff the stripped text is within the bound and is empty or has a character outside the class |
| BotInput.PathSeparatorErrorMeansDotDot | bot.py:117-119 | the separator error is raised iff the text passes the first two checks and contains ".." |
| BotInput.SanitizeIdempotent | bot.py:107-121 | sanitising an accepted description again returns it unchanged |
| BotInput.SanitizeAcceptsMaximumLength | bot.py:45 | a trimmed, safe description of exactly 500 characters is accepted unchanged |
| BotInput.SanitizeLongPathFailsOnLength | bot.py:110-119 | a 600-character text starting with '/' gets the length error, not the separator error |
| BotInput.SanitizeRejectsSlash | bot.py:46 | "../etc" fails the character test because of its '/' |
| BotInput.SanitizeRejectsDotDot | bot.py:118-119 | "fix a..b" passes the character test and gets the separator error |
| BotInput.SanitizeRejectsBlank | bot.py:107-115 | a description made only of whitespace gets the character error |
| BotInput.SanitizeIgnoresPadding | bot.py:107 | surrounding whitespace never changes the verdict or the accepted text |
| BotInput.IsAuthorized | bot.py:80-85 | `is_authorized`; its contract is carried by `BotInput.UnsetIdentityAuthorizesNobody` and `BotInput.AtMostOneAuthorizedUser` |
| BotInput.UnsetIdentityAuthorizesNobody | bot.py:80-85 | with `TELEGRAM_USER_ID` unset, no user is authorised |
| BotInput.AtMostOneAuthorizedUser | bot.py:85 | two authorised user ids are equal |
| BotInput.SafeErrorMessage | bot.py:124-132 | `safe_error_message`; its contract is carried by `BotInput.SafeErrorMessageIsUniform` |
| BotInput.SafeErrorMessageIsUniform | bot.py:124-132 | the message shown for a caught exception is the same non-empty text for every exception |
| BotConfig.MessagesIdentifySetting | bot.py:56-71 | the six configuration errors have six different logged texts, so each names the one setting that is missing |
| BotConfig.DenotesCurrentDir | bot.py:64-71 | `str(Path(raw)) == '.'`; its contract is carried by `BotConfig.UnsetPathIsCurrentDir` and `BotConfig.CurrentDirSpellings` |
| BotConfig.Check | bot.py:56-71 | one check appends its error exactly when its setting is missing, and keeps the report in check order |
| BotConfig.ValidateConfiguration | bot.py:49-77 | the error list contains exactly the missing settings, in check order, and the process exits iff some setting is missing |
| BotConfig.UnsetPathIsCurrentDir | bot.py:39-42 | an unset path variable becomes `Path('')`, whose text is `'.'`, so it is reported |
| BotConfig.CurrentDirSpellings | bot.py:64-71 | ".", "./" and "./." are reported as unset; "/", ".." and a file name are not |
| BotHandlers.TaskContent | bot.py:210-220 | the task file contains the `**Status:** pending` line, and the description sits between the fixed header and the fixed footer |
| BotHandlers.WriteTaskOutcome | bot.py:203-233 | the file writes of a valid `/task`; its contract is carried by `BotHandlers.ControlBot.WriteTask`, `BotHandlers.CreateTaskSuccess` and `BotHandlers.InterruptedTaskWrites` |
| BotHandlers.CreateTaskOutcome | bot.py:184-245 | `/task` on a `Files` value; its contract is carried by `BotHandlers.ControlBot.CreateTask`, `BotHandlers.UnauthorizedChangesNothing`, `BotHandlers.InvalidTaskWritesNothing`, `BotHandlers.CreateTaskSuccess`, `BotHandlers.InterruptedTaskWrites` and `BotHandlers.CreateTaskAddsOneFile` |
| BotHandlers.ResolveOutcome | bot.py:253-265 | `/approve` and `/reject` on a `Files` value; its contract is carried by `BotHandlers.ControlBot.Resolve`, `BotHandlers.ResolveClosesGate`, `BotHandlers.ResolveWithoutGateIsNoOp`, `BotHandlers.ResolveTwiceIsNoOp`, `BotHandlers.ResolveIsNotAtomic` and `BotHandlers.InterruptedWriteEmptiesResponse` |
| BotHandlers.StatusReply | bot.py:164-181 | the `/status` reply; its contract is carried by `BotHandlers.ControlBot.Status` and `BotHandlers.StatusReportsFiles` |
| BotHandlers.ControlBot.constructor | bot.py:35-42 | a bot starts with the configured identity and the files as found |
| BotHandlers.ControlBot.RequestApproval | bot.py:254-259 | the outside agent opens the gate by creating the approval file, and nothing else changes |
| BotHandlers.ControlBot.CreateTask | bot.py:184-245 | the files and the reply after `/task` are those of `CreateTaskOutcome` for the old files |
| BotHandlers.ControlBot.WriteTask | bot.py:203-233 | mkdir, then open and write of the task file, then open and write of the status file, in that order; the files and reply are those of `WriteTaskOutcome`, so a fault keeps the effects before it and a fault in a write leaves that file empty |
| BotHandlers.ControlBot.Resolve | bot.py:253-265 | the files and the reply after a resolution are those of `ResolveOutcome` for the old files: opening the response file truncates it, then the word is written, then the approval file is unlinked, and a fault at any step keeps the effects before it |
| BotHandlers.ControlBot.Approve | bot.py:248-265 | `/approve` is the resolution with "APPROVED" |
| BotHandlers.ControlBot.Reject | bot.py:268-285 | `/reject` is the resolution with "REJECTED" |
| BotHandlers.ControlBot.Status | bot.py:159-181 | the reply is `StatusReply` of the current files and changes nothing; an unauthorised sender gets no reply; otherwise the report shows the status file and the approval file as they are, unless reading the status file raised |
| BotHandlers.UnauthorizedChangesNothing | bot.py:189-190 | for an unauthorised sender, `/task`, `/approve`, `/reject` and `/status` change no file and send no reply |
| BotHandlers.InvalidTaskWritesNothing | bot.py:196-242 | a description that fails validation writes nothing and reports the validation error |
| BotHandlers.CreateTaskSuccess | bot.py:200-237 | a successful `/task` writes the timestamp-named task file with the sanitised description, overwrites the status file, and leaves the approval and response files alone |
| BotHandlers.WriteTaskSteps | bot.py:203-233 | when every write succeeds, the task file holds the task record, the status file the new-task text, and the reply names both; a fault in the task-file write leaves that file empty, and one in the status write leaves the status file empty after the task file is complete |
| BotHandlers.InterruptedTaskWrites | bot.py:222-233 | a fault while writing the task file leaves it empty; a fault while writing the status file leaves the status file empty and keeps the task file; both reply with the generic error |
| BotHandlers.CreateTaskAddsOneFile | bot.py:206-222 | with a fresh timestamp the task directory grows by exactly one file |
| BotHandlers.TaskFileNameIgnoresText | bot.py:205-207 | the task file name depends on the clock only, never on the user's text |
| BotHandlers.ResolveClosesGate | bot.py:254-261 | with the gate open, the response becomes exactly the decision word and the approval file is removed; nothing else changes |
| BotHandlers.ResolveWithoutGateIsNoOp | bot.py:254-256 | with no approval file, `/approve` and `/reject` change nothing |
| BotHandlers.ResolveTwiceIsNoOp | bot.py:254-259 | a second resolution after a completed one changes nothing |
| BotHandlers.ResolveIsNotAtomic | bot.py:258-259 | if the unlink fails, the response holds "APPROVED" while the gate stays open, and a later `/reject` overwrites it |
| BotHandlers.InterruptedWriteEmptiesResponse | bot.py:258 | with the gate open, a fault while writing the response leaves the response file empty and the gate open, with the generic error |
| BotHandlers.FirstFaultChangesNothing | bot.py:203 | a fault in a handler's first file operation leaves every file as it was: creating the task directory here, and opening the response file at bot.py:258 |
| BotHandlers.HandlersNeverOpenGate | bot.py:184-285 | no handler creates the approval file |
| BotHandlers.StatusReportsFiles | bot.py:171-177 | `/status` reports the status file and the gate as they are, unless reading the status file raised |
| ModeDetection.DetectExecutionMode | bot_v3.py:22-31 | the scan loop returns what `ProbeOf` gives for the process list |
| ModeDetection.ProbeOf | bot_v3.py:22-31 | `detect_execution_mode` as a recursive function; its contract is carried by `ModeDetection.ProbeLocalIff`, `ModeDetection.ProbeCloudIff`, `ModeDetection.ProbeTotalWhenNamed`, `ModeDetection.ProbeSkipsUnreadable` and `ModeDetection.DetectExecutionMode` |
| ModeDetection.ProbeLocalIff | bot_v3.py:24-28 | the scan answers "local" iff some readable record mentions the agent and no record before it raises |
| ModeDetection.ProbeCloudIff | bot_v3.py:24-31 | the scan answers "cloud" iff no record mentions the agent and none raises |
| ModeDetection.ProbeTotalWhenNamed | bot_v3.py:27 | when every record has a name, the answer is one of the two modes |
| ModeDetection.NamelessRecordsCanBeAnswered | bot_v3.py:24-30 | a nameless record whose command line mentions the agent gives "local", because the `or` stops before `name.lower()`; a nameless unreadable record is skipped, giving "cloud" |
| ModeDetection.ProbeSkipsUnreadable | bot_v3.py:29-30 | a record that raises `NoSuchProcess` or `AccessDenied` is skipped wherever it appears |
| Dispatch.TriggerGitHubActions | bot_v3.py:110-141 | without a token, no request and false; with one, the dispatch request is sent, and the result is true iff the answer is 204 |
| Dispatch.DispatchRequestFor | bot_v3.py:116-128 | the request `trigger_github_actions` sends; its contract is carried by `Dispatch.PayloadIdentifiesRequester` and `Dispatch.DistinctChatsDistinctPayloads` |
| Dispatch.PayloadIdentifiesRequester | bot_v3.py:121-128 | the payload carries the task verbatim, and chat and message ids that read back as the originals |
| Dispatch.DistinctChatsDistinctPayloads | bot_v3.py:125 | requests for different chats differ |
| Dispatch.GitHubToken | bot_v3.py:16 | the token lookup; its contract is carried by `Dispatch.EmptyPatDisablesCloud` |
| Dispatch.EmptyPatDisablesCloud | bot_v3.py:16 | a set but empty `GITHUB_PAT` hides `GITHUB_TOKEN`, so no request is ever sent |
| AgentRemote.ResolveMode | bot_v3.py:73 | the eager `dict.get` of the mode; its contract is carried by `AgentRemote.StoredModeTakesPrecedence`, `AgentRemote.UnsetChatFollowsScan`, `AgentRemote.RaisingScanAbortsPinnedChat`, `AgentRemote.OtherChatsUnaffected` and `AgentRemote.AutoPinsDetectedMode` |
| AgentRemote.PendingTaskAfter | bot_v3.py:145-155 | the exchange file holds the task after a write, is unchanged when `makedirs` or `open` raised, and is empty when `write` raised after truncation |
| AgentRemote.Bot.constructor | bot_v3.py:20 | the bot starts with no chat mode stored |
| AgentRemote.Bot.CloudMode | bot_v3.py:157-166 | `/cloud` sets only the caller's entry, to cloud |
| AgentRemote.Bot.LocalMode | bot_v3.py:168-177 | `/local` sets only the caller's entry, to local |
| AgentRemote.Bot.AutoMode | bot_v3.py:179-189 | `/auto` stores the mode the scan detects now; a scan that raises leaves the map alone |
| AgentRemote.Bot.TriggerLocalExecution | bot_v3.py:143-155 | the result is true iff the write succeeded, and the exchange file is `PendingTaskAfter` of the old one |
| AgentRemote.Bot.TaskCommand | bot_v3.py:58-108 | the command needs arguments; it resolves the mode from the stored entry or else the scan; "cloud" goes to the GitHub trigger and any other mode to the exchange file; the map is never changed |
| AgentRemote.Bot.StatusCommand | bot_v3.py:191-215 | it reports the stored setting or "auto", the detected mode, the agent's and the token's availability, and the active mode (stored or detected); it changes nothing |
| AgentRemote.StoredModeTakesPrecedence | bot_v3.py:73 | a stored mode wins over the scan |
| AgentRemote.UnsetChatFollowsScan | bot_v3.py:73 | without a stored mode, the scan decides |
| AgentRemote.RaisingScanAbortsPinnedChat | bot_v3.py:73 | a scan that raises aborts `/task` even for a chat with a stored mode |
| AgentRemote.OtherChatsUnaffected | bot_v3.py:160 | setting one chat's mode never changes how another chat's tasks resolve |
| AgentRemote.AutoPinsDetectedMode | bot_v3.py:182-183 | after `/auto`, that chat's tasks use the mode detected then, whatever a later scan finds |
| AgentRemote.UnpinnedChatWithAgentIsLocal | bot_v3.py:24-28 | a chat with no stored mode resolves to local whenever the scan finds the agent before any record that raises |
| AgentRemote.TaskTextIsNotSanitized | bot_v3.py:70 | a traversal string that the control bot rejects reaches the exchange file verbatim |
| AgentRemote.PinnedLocalTaskIsWrittenVerbatim | bot_v3.py:58-108 | after `/local`, `/task` writes the joined arguments to the exchange file unchanged for every argument list, including "../../etc/passwd" that `sanitize_task_description` rejects |

## Left out

- Telegram plumbing is not modelled: `Application`, `CommandHandler`, `run_polling` and `reply_text`. Nor are the exact reply texts, Markdown and emoji, logging or `print`, apart from the validation and configuration error texts. Replies are abstract `Reply`, `TaskResult` and `StatusResult` values.
- An exception raised by `reply_text` is not modelled. Inside a control-bot handler's `try` it would be caught. The dual-mode bot's "Task Queued" reply (bot_v3.py:75-81) is outside any `try` and puts the raw task text into Markdown; a text that fails to parse makes it raise, so `/task` stops before routing and writes nothing. `AgentRemote.Bot.TaskCommand` assumes this reply succeeds.
- `/start` and `/ping` of both bots and the `main` functions are not modelled. They only reply or register handlers.
- The `TELEGRAM_BOT_TOKEN` check in `bot_v3.py`'s `main` is not modelled.
- `sys.exit(1)` is the boolean `exits` of `BotConfig.ValidateConfiguration`; the logged lines are not modelled.
- `str(Path(raw)) == '.'` is modelled for POSIX paths only. Other path normalisation is left out because only that comparison matters.
- `Path.exists()` is treated as infallible. Only the operations that write, unlink or read can raise (`failAt`).
- A `write_text` that fails part-way through writing is modelled as leaving its file empty; partially written text is not modelled.
- `datetime.now()` readings are inputs (`Clock`). Their formats and their uniqueness are not modelled.
- The control bot's four configured paths are assumed distinct, and the status, approval and response files are assumed to lie outside the task directory. `validate_configuration` does not check this. With aliased paths one write changes several of the modelled files: a status file equal to the approval file would open the gate, and a response file equal to the approval file would be written and then unlinked. `BotHandlers.HandlersNeverOpenGate`, `BotHandlers.CreateTaskSuccess` and `BotHandlers.ResolveClosesGate` hold only for distinct paths.
- Concurrent handlers are not modelled. Each handler runs alone, in program order.
- `lower()` is modelled for ASCII letters only. Unicode case mapping is left out.
- The real `psutil.process_iter` is replaced by a sequence of `ProcessInfo` records.
- The real `requests.post` is replaced by an `HttpOutcome`.
- The real file writes of `trigger_local_execution` are replaced by a `LocalWrite` outcome. `os.path.expanduser` is not modelled.
- `upper()` of the mode names in replies is not modelled.

/**
 * The dual-mode bot (bot_v3.py): the per-chat execution-mode map that
 * `/cloud`, `/local` and `/auto` update in place, the mode resolution and
 * routing of `/task`, the local backend's exchange file, and `/status`.
 * Unlike the control bot, this one checks neither who sends a command nor
 * what the task text contains.
 */
module AgentRemote {
  import opened Wrappers
  import opened Text
  import opened ModeDetection
  import opened Dispatch
  import BotInput

  /**
   * How writing the exchange file went: `os.makedirs` or `open(..., 'w')`
   * raised (nothing changed), `write` raised after `open` truncated the
   * file, or all succeeded.
   */
  datatype LocalWrite = Written | MakedirsRaised | OpenRaised | WriteRaised

  /** The exchange file `~/claude_code_tasks/pending_task.txt` after `trigger_local_execution`. */
  function PendingTaskAfter(before: Option<string>, task: string, w: LocalWrite): (after: Option<string>)
    ensures w == Written ==> after == Some(task)
    ensures w == MakedirsRaised || w == OpenRaised ==> after == before
    ensures w == WriteRaised ==> after == Some("")
  {
    match w
    case Written => Some(task)
    case MakedirsRaised => before
    case OpenRaised => before
    case WriteRaised => Some("")
  }

  /**
   * `user_execution_mode.get(chat_id, detect_execution_mode())`. Python
   * evaluates the default first, so the scan runs (and may raise) even when
   * the chat has a stored mode; `None` is that raise.
   */
  function ResolveMode(modes: map<int, Mode>, chatId: int, probe: Probe): Option<Mode> {
    match probe
    case ProbeRaised => None
    case Detected(detected) => Some(if chatId in modes then modes[chatId] else detected)
  }

  /** What `/task` did. */
  datatype TaskResult =
    | NeedsDescription  // no arguments
    | Aborted           // the process scan raised
    | Dispatched(mode: Mode, task: string, request: Option<DispatchRequest>, success: bool)

  /** What `/status` reports. */
  datatype StatusResult =
    | StatusAborted     // the process scan raised
    | StatusShown(setting: string, detected: Mode, localRunning: bool, githubConfigured: bool, active: Mode)

  /** The in-memory state of one running dual-mode bot and the exchange file it writes. */
  class Bot {
    var userExecutionMode: map<int, Mode>
    var pendingTask: Option<string>
    const githubToken: Option<string>

    /** Start-up: no chat has a mode; the exchange file is whatever is on disk. */
    constructor (githubToken: Option<string>, pendingTask: Option<string>)
      ensures userExecutionMode == map[]
      ensures this.pendingTask == pendingTask && this.githubToken == githubToken
    {
      userExecutionMode := map[];
      this.pendingTask := pendingTask;
      this.githubToken := githubToken;
    }

    /** `/cloud`: pin this chat to the cloud backend. */
    method CloudMode(chatId: int)
      modifies this`userExecutionMode
      ensures userExecutionMode == old(userExecutionMode)[chatId := Cloud]
    {
      userExecutionMode := userExecutionMode[chatId := Cloud];
    }

    /** `/local`: pin this chat to the local backend. */
    method LocalMode(chatId: int)
      modifies this`userExecutionMode
      ensures userExecutionMode == old(userExecutionMode)[chatId := Local]
    {
      userExecutionMode := userExecutionMode[chatId := Local];
    }

    /** `/auto`: store the mode detected now; a scan that raises leaves the map alone. */
    method AutoMode(chatId: int, procs: seq<ProcessInfo>) returns (probe: Probe)
      modifies this`userExecutionMode
      ensures probe == ProbeOf(procs)
      ensures probe.Detected? ==> userExecutionMode == old(userExecutionMode)[chatId := probe.mode]
      ensures probe.ProbeRaised? ==> userExecutionMode == old(userExecutionMode)
    {
      probe := DetectExecutionMode(procs);
      if probe.Detected? {
        userExecutionMode := userExecutionMode[chatId := probe.mode];
      }
    }

    /** `trigger_local_execution`: overwrite the exchange file with the task text, verbatim. */
    method TriggerLocalExecution(task: string, w: LocalWrite) returns (ok: bool)
      modifies this`pendingTask
      ensures ok <==> w == Written
      ensures pendingTask == PendingTaskAfter(old(pendingTask), task, w)
    {
      match w
      case Written =>
        pendingTask := Some(task);
        ok := true;
      case MakedirsRaised =>
        ok := false;
      case OpenRaised =>
        ok := false;
      case WriteRaised =>
        pendingTask := Some("");
        ok := false;
    }

    /**
     * `/task <args>`: resolve the mode (stored entry, else the scan), then
     * "cloud" goes to the GitHub trigger and every other mode to the exchange
     * file. The mode map is never changed.
     */
    method TaskCommand(chatId: int, args: seq<string>, messageId: int, procs: seq<ProcessInfo>,
                       http: HttpOutcome, w: LocalWrite) returns (r: TaskResult)
      modifies this`pendingTask
      ensures userExecutionMode == old(userExecutionMode)
      ensures args == [] ==> r == NeedsDescription && pendingTask == old(pendingTask)
      ensures args != [] && ProbeOf(procs).ProbeRaised? ==> r == Aborted && pendingTask == old(pendingTask)
      ensures args != [] && ProbeOf(procs).Detected? ==>
        var mode := ResolveMode(userExecutionMode, chatId, ProbeOf(procs)).value;
        var task := Join(args, " ");
        && r.Dispatched? && r.mode == mode && r.task == task
        && (mode == Cloud ==>
              && CloudTrigger(r.request, r.success) == TriggerGitHubActions(githubToken, chatId, task, messageId, http)
              && pendingTask == old(pendingTask))
        && (mode != Cloud ==>
              && r.request.None? && (r.success <==> w == Written)
              && pendingTask == PendingTaskAfter(old(pendingTask), task, w))
    {
      if args == [] {
        return NeedsDescription;
      }
      var task := Join(args, " ");
      var probe := DetectExecutionMode(procs);
      if probe.ProbeRaised? {
        return Aborted;
      }
      var mode := if chatId in userExecutionMode then userExecutionMode[chatId] else probe.mode;
      if mode == Cloud {
        var trigger := TriggerGitHubActions(githubToken, chatId, task, messageId, http);
        r := Dispatched(mode, task, trigger.request, trigger.success);
      } else {
        var ok := TriggerLocalExecution(task, w);
        r := Dispatched(mode, task, None, ok);
      }
    }

    /** `/status`: the stored setting (or "auto"), the scan's answer and the mode a task would use; reads only. */
    method StatusCommand(chatId: int, procs: seq<ProcessInfo>) returns (r: StatusResult)
      ensures ProbeOf(procs).ProbeRaised? <==> r == StatusAborted
      ensures r.StatusShown? ==>
        && r.setting == (if chatId in userExecutionMode then userExecutionMode[chatId].Name() else "auto")
        && Detected(r.detected) == ProbeOf(procs)
        && (r.localRunning <==> r.detected == Local)
        && (r.githubConfigured <==> HasToken(githubToken))
        && Some(r.active) == ResolveMode(userExecutionMode, chatId, ProbeOf(procs))
    {
      var setting := if chatId in userExecutionMode then userExecutionMode[chatId].Name() else "auto";
      var probe := DetectExecutionMode(procs);
      if probe.ProbeRaised? {
        return StatusAborted;
      }
      var detected := probe.mode;
      var active := if chatId in userExecutionMode then userExecutionMode[chatId] else detected;
      r := StatusShown(setting, detected, detected == Local, HasToken(githubToken), active);
    }
  }

  /** A stored mode wins over whatever the scan finds. */
  lemma StoredModeTakesPrecedence(modes: map<int, Mode>, chatId: int, probe: Probe)
    requires chatId in modes && probe.Detected?
    ensures ResolveMode(modes, chatId, probe) == Some(modes[chatId])
  {
  }

  /** Without a stored mode the scan decides. */
  lemma UnsetChatFollowsScan(modes: map<int, Mode>, chatId: int, probe: Probe)
    requires chatId !in modes && probe.Detected?
    ensures ResolveMode(modes, chatId, probe) == Some(probe.mode)
  {
  }

  /** A scan that raises aborts the task even for a chat with a stored mode. */
  lemma RaisingScanAbortsPinnedChat(modes: map<int, Mode>, chatId: int)
    ensures ResolveMode(modes, chatId, ProbeRaised) == None
  {
  }

  /** Setting one chat's mode never changes how another chat's tasks resolve. */
  lemma OtherChatsUnaffected(modes: map<int, Mode>, chatId: int, other: int, m: Mode, probe: Probe)
    requires other != chatId
    ensures ResolveMode(modes[chatId := m], other, probe) == ResolveMode(modes, other, probe)
  {
  }

  /**
   * `/auto` pins the mode it detects: later tasks of that chat use it even
   * when the agent has since started or stopped, because the entry is
   * stored rather than cleared.
   */
  lemma AutoPinsDetectedMode(modes: map<int, Mode>, chatId: int, atAuto: seq<ProcessInfo>, atTask: seq<ProcessInfo>)
    requires ProbeOf(atAuto).Detected? && ProbeOf(atTask).Detected?
    ensures ResolveMode(modes[chatId := ProbeOf(atAuto).mode], chatId, ProbeOf(atTask)) == Some(ProbeOf(atAuto).mode)
  {
  }

  /** A chat with no stored mode resolves to "local" whenever the scan finds the agent before any record that raises. */
  lemma UnpinnedChatWithAgentIsLocal(modes: map<int, Mode>, chatId: int, procs: seq<ProcessInfo>)
    requires chatId !in modes
    requires exists i :: 0 <= i < |procs| && SignalsAgent(procs[i]) && NoBreakBefore(procs, i)
    ensures ResolveMode(modes, chatId, ProbeOf(procs)) == Some(Local)
  {
    ProbeLocalIff(procs);
  }

  /**
   * `/task` here skips the control bot's sanitisation: a traversal string that
   * `sanitize_task_description` rejects reaches the exchange file verbatim.
   */
  lemma TaskTextIsNotSanitized(before: Option<string>)
    ensures PendingTaskAfter(before, Join(["../../etc/passwd"], " "), Written) == Some("../../etc/passwd")
    ensures BotInput.Sanitize("../../etc/passwd").Err?
  {
    var text := "../../etc/passwd";
    assert Join([text], " ") == text;
    StripOfTrimmed(text);
    assert !BotInput.IsAllowedChar(text[2]);
    BotInput.SanitizeCharactersSecond(text);
  }

  /**
   * `/local` followed by `/task <args>` in the same chat: whatever the text,
   * including one `sanitize_task_description` would refuse, it is written to
   * the exchange file as typed (words joined by single spaces), provided the
   * process scan does not raise and the write succeeds.
   */
  method PinnedLocalTaskIsWrittenVerbatim(bot: Bot, chatId: int, args: seq<string>, messageId: int,
                                          procs: seq<ProcessInfo>, http: HttpOutcome) returns (r: TaskResult)
    modifies bot
    ensures bot.userExecutionMode == old(bot.userExecutionMode)[chatId := Local]
    ensures args != [] && ProbeOf(procs).Detected? ==>
      r == Dispatched(Local, Join(args, " "), None, true) && bot.pendingTask == Some(Join(args, " "))
    ensures args == ["../../etc/passwd"] && ProbeOf(procs).Detected? ==>
      bot.pendingTask == Some("../../etc/passwd") && BotInput.Sanitize("../../etc/passwd").Err?
  {
    bot.LocalMode(chatId);
    r := bot.TaskCommand(chatId, args, messageId, procs, http, Written);
    TaskTextIsNotSanitized(None);
  }
}

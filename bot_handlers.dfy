/**
 * The command handlers of the control bot (bot.py) as state transitions of
 * the files they touch: the status file, the approval file (the single-slot
 * approval gate, present or absent), the response file and the task
 * directory. Each handler performs its file operations in program order;
 * `failAt` names the operation, counted from 0, that raises an `OSError`
 * (caught by the handler's `except Exception`), so the effects of the
 * operations before it persist. A `write_text` is two operations: opening
 * the file with 'w', which creates or truncates it, then writing the text;
 * a failure between them leaves the file empty.
 */
module BotHandlers {
  import opened Wrappers
  import opened Text
  import opened BotInput

  /**
   * What the handlers can observe and change on disk. `None` is a file that
   * does not exist. The fields are independent: the configured paths are
   * taken to be distinct, with the three files outside the task directory.
   */
  datatype Files = Files(
    status: Option<string>,
    approvalPresent: bool,
    response: Option<string>,
    tasksDirExists: bool,
    tasks: map<string, string>  // file name in the tasks directory -> content
  )

  /** The three readings of `datetime.now()` in `create_task`, as formatted there. */
  datatype Clock = Clock(fileStamp: string, createdIso: string, startedAt: string)

  /** The two resolutions of the approval gate. */
  datatype Decision = Approve | Reject {

    /** The word written to the response file. */
    function Word(): string {
      match this
      case Approve => "APPROVED"
      case Reject => "REJECTED"
    }
  }

  /** What the handler replies (the chat text itself is not modelled). */
  datatype Reply =
    | NoReply                     // unauthorised sender: silently ignored
    | Usage                       // `/task` without arguments
    | Invalid(error: SanitizeError)
    | GenericError                // `safe_error_message` after a caught exception
    | TaskCreated(description: string, fileName: string)
    | NoPendingApprovals
    | Resolved(decision: Decision)
    | StatusReport(status: Option<string>, approvalPending: bool)

  /** The files after a handler, with its reply. */
  datatype Outcome = Outcome(files: Files, reply: Reply)

  /** `telegram_{timestamp}.md`: built from the clock only, never from user text. */
  function TaskFileName(stamp: string): string {
    "telegram_" + stamp + ".md"
  }

  const PendingLine: string := "**Status:** pending"

  function TaskHeader(createdIso: string): string {
    ("# Task from Telegram\n\n**Created:** " + createdIso + "\n") + PendingLine + "\n\n## Description\n"
  }

  const TaskFooter: string := "\n\n## Instructions\nExecute autonomously. Report progress to status file.\n"

  /** The task file: a `pending` header, the sanitised description, the instructions. */
  function TaskContent(createdIso: string, description: string): (r: string)
    ensures Contains(r, PendingLine)
    ensures |TaskHeader(createdIso)| + |TaskFooter| <= |r|
    ensures r[|TaskHeader(createdIso)|..|r| - |TaskFooter|] == description
  {
    var pre := "# Task from Telegram\n\n**Created:** " + createdIso + "\n";
    var post := "\n\n## Description\n";
    var r := TaskHeader(createdIso) + description + TaskFooter;
    assert r == pre + PendingLine + (post + description + TaskFooter);
    assert OccursAt(r, PendingLine, |pre|);
    r
  }

  /** The status file after a new task. */
  function StatusContent(description: string, startedAt: string, fileName: string): string {
    "\U{1F7E2} New Task\n\nTask: " + description + "\nStarted: " + startedAt + "\nFile: " + fileName + "\n"
  }

  /**
   * The writes of `create_task` once the description is accepted: make the
   * task directory (operation 0), write the task file (open 1, write 2),
   * overwrite the status file (open 3, write 4).
   */
  function WriteTaskOutcome(fs: Files, description: string, clock: Clock, failAt: Option<nat>): Outcome {
    if failAt == Some(0) then Outcome(fs, GenericError)
    else
      var name := TaskFileName(clock.fileStamp);
      var fs1 := fs.(tasksDirExists := true);
      if failAt == Some(1) then Outcome(fs1, GenericError)
      else
        var fs2 := fs1.(tasks := fs1.tasks[name := ""]);
        if failAt == Some(2) then Outcome(fs2, GenericError)
        else
          var fs3 := fs2.(tasks := fs2.tasks[name := TaskContent(clock.createdIso, description)]);
          if failAt == Some(3) then Outcome(fs3, GenericError)
          else
            var fs4 := fs3.(status := Some(""));
            if failAt == Some(4) then Outcome(fs4, GenericError)
            else Outcome(fs4.(status := Some(StatusContent(description, clock.startedAt, name))), TaskCreated(description, name))
  }

  /** `create_task`: authorise, require arguments, validate the joined text, then write. */
  function CreateTaskOutcome(fs: Files, authorized: bool, args: seq<string>, clock: Clock, failAt: Option<nat>): Outcome {
    if !authorized then Outcome(fs, NoReply)
    else if args == [] then Outcome(fs, Usage)
    else
      match Sanitize(Join(args, " "))
      case Err(e) => Outcome(fs, Invalid(e))
      case Ok(description) => WriteTaskOutcome(fs, description, clock, failAt)
  }

  /**
   * `approve` / `reject`: if the gate is open, write the decision to the
   * response file (open 0, write 1), then remove the approval file (unlink 2).
   */
  function ResolveOutcome(fs: Files, authorized: bool, decision: Decision, failAt: Option<nat>): Outcome {
    if !authorized then Outcome(fs, NoReply)
    else if !fs.approvalPresent then Outcome(fs, NoPendingApprovals)
    else if failAt == Some(0) then Outcome(fs, GenericError)
    else
      var fs1 := fs.(response := Some(""));
      if failAt == Some(1) then Outcome(fs1, GenericError)
      else
        var fs2 := fs1.(response := Some(decision.Word()));
        if failAt == Some(2) then Outcome(fs2, GenericError)
        else Outcome(fs2.(approvalPresent := false), Resolved(decision))
  }

  /** `status` (bot.py:159-181): report the status file (if any) and whether approval is pending. */
  function StatusReply(fs: Files, authorized: bool, failAt: Option<nat>): Reply {
    if !authorized then NoReply
    else if fs.status.Some? && failAt == Some(0) then GenericError
    else StatusReport(fs.status, fs.approvalPresent)
  }

  /** The files and the authorised identity of one running control bot. */
  class ControlBot {
    const authorizedUserId: Option<string>
    var statusFile: Option<string>
    var approvalFilePresent: bool
    var responseFile: Option<string>
    var tasksDirExists: bool
    var taskFiles: map<string, string>

    /** The files as a value. */
    function Snapshot(): Files
      reads this
    {
      Files(statusFile, approvalFilePresent, responseFile, tasksDirExists, taskFiles)
    }

    constructor (authorizedUserId: Option<string>, initial: Files)
      ensures this.authorizedUserId == authorizedUserId && Snapshot() == initial
    {
      this.authorizedUserId := authorizedUserId;
      statusFile := initial.status;
      approvalFilePresent := initial.approvalPresent;
      responseFile := initial.response;
      tasksDirExists := initial.tasksDirExists;
      taskFiles := initial.tasks;
    }

    /** The agent outside the bot asks for approval by creating the approval file; no handler does this. */
    method RequestApproval()
      modifies this
      ensures Snapshot() == old(Snapshot()).(approvalPresent := true)
    {
      approvalFilePresent := true;
    }

    /** `/task <args>`. */
    method CreateTask(userId: int, args: seq<string>, clock: Clock, failAt: Option<nat>) returns (reply: Reply)
      modifies this
      ensures Outcome(Snapshot(), reply)
           == CreateTaskOutcome(old(Snapshot()), IsAuthorized(userId, authorizedUserId), args, clock, failAt)
    {
      if !IsAuthorized(userId, authorizedUserId) {
        return NoReply;
      }
      if args == [] {
        return Usage;
      }
      var sanitized := Sanitize(Join(args, " "));
      if sanitized.Err? {
        return Invalid(sanitized.error);
      }
      reply := WriteTask(sanitized.value, clock, failAt);
    }

    /** The file operations of `/task`, in program order, stopping at the one that raises. */
    method WriteTask(description: string, clock: Clock, failAt: Option<nat>) returns (reply: Reply)
      modifies this
      ensures Outcome(Snapshot(), reply) == WriteTaskOutcome(old(Snapshot()), description, clock, failAt)
    {
      if failAt == Some(0) {
        return GenericError;
      }
      tasksDirExists := true;
      var name := TaskFileName(clock.fileStamp);
      if failAt == Some(1) {
        return GenericError;
      }
      taskFiles := taskFiles[name := ""];
      if failAt == Some(2) {
        return GenericError;
      }
      taskFiles := taskFiles[name := TaskContent(clock.createdIso, description)];
      if failAt == Some(3) {
        return GenericError;
      }
      statusFile := Some("");
      if failAt == Some(4) {
        return GenericError;
      }
      statusFile := Some(StatusContent(description, clock.startedAt, name));
      reply := TaskCreated(description, name);
    }

    /** The shared body of `/approve` and `/reject`: write the response file, then unlink the approval file. */
    method Resolve(userId: int, decision: Decision, failAt: Option<nat>) returns (reply: Reply)
      modifies this
      ensures Outcome(Snapshot(), reply)
           == ResolveOutcome(old(Snapshot()), IsAuthorized(userId, authorizedUserId), decision, failAt)
    {
      if !IsAuthorized(userId, authorizedUserId) {
        return NoReply;
      }
      if !approvalFilePresent {
        return NoPendingApprovals;
      }
      if failAt == Some(0) {
        return GenericError;
      }
      responseFile := Some("");
      if failAt == Some(1) {
        return GenericError;
      }
      responseFile := Some(decision.Word());
      if failAt == Some(2) {
        return GenericError;
      }
      approvalFilePresent := false;
      reply := Resolved(decision);
    }

    /** `/approve`. */
    method Approve(userId: int, failAt: Option<nat>) returns (reply: Reply)
      modifies this
      ensures Outcome(Snapshot(), reply)
           == ResolveOutcome(old(Snapshot()), IsAuthorized(userId, authorizedUserId), Decision.Approve, failAt)
    {
      reply := Resolve(userId, Decision.Approve, failAt);
    }

    /** `/reject`. */
    method Reject(userId: int, failAt: Option<nat>) returns (reply: Reply)
      modifies this
      ensures Outcome(Snapshot(), reply)
           == ResolveOutcome(old(Snapshot()), IsAuthorized(userId, authorizedUserId), Decision.Reject, failAt)
    {
      reply := Resolve(userId, Decision.Reject, failAt);
    }

    /** `/status`: reads only. */
    method Status(userId: int, failAt: Option<nat>) returns (reply: Reply)
      ensures reply == StatusReply(Snapshot(), IsAuthorized(userId, authorizedUserId), failAt)
      ensures !IsAuthorized(userId, authorizedUserId) ==> reply == NoReply
      ensures reply.StatusReport? ==> reply.status == statusFile && reply.approvalPending == approvalFilePresent
      ensures IsAuthorized(userId, authorizedUserId) && (statusFile.None? || failAt != Some(0)) ==> reply.StatusReport?
    {
      if !IsAuthorized(userId, authorizedUserId) {
        return NoReply;
      }
      if statusFile.Some? && failAt == Some(0) {
        return GenericError;
      }
      reply := StatusReport(statusFile, approvalFilePresent);
    }
  }

  /** An unauthorised sender never changes a file, whatever the command. */
  lemma UnauthorizedChangesNothing(fs: Files, args: seq<string>, clock: Clock, decision: Decision, failAt: Option<nat>)
    ensures CreateTaskOutcome(fs, false, args, clock, failAt) == Outcome(fs, NoReply)
    ensures ResolveOutcome(fs, false, decision, failAt) == Outcome(fs, NoReply)
    ensures StatusReply(fs, false, failAt) == NoReply
  {
  }

  /** A description that fails validation writes nothing and reports the reason. */
  lemma InvalidTaskWritesNothing(fs: Files, args: seq<string>, clock: Clock, failAt: Option<nat>)
    requires args != [] && Sanitize(Join(args, " ")).Err?
    ensures CreateTaskOutcome(fs, true, args, clock, failAt) == Outcome(fs, Invalid(Sanitize(Join(args, " ")).error))
  {
  }

  /**
   * A successful task creation adds (or overwrites) exactly the timestamp-named
   * task file with a `pending` record of the sanitised description, overwrites
   * the status file, and leaves the approval and response files alone.
   */
  lemma CreateTaskSuccess(fs: Files, args: seq<string>, clock: Clock)
    requires args != [] && Sanitize(Join(args, " ")).Ok?
    ensures var o := CreateTaskOutcome(fs, true, args, clock, None);
      var d := Sanitize(Join(args, " ")).value;
      var name := TaskFileName(clock.fileStamp);
      && o.reply == TaskCreated(d, name)
      && o.files.tasks == fs.tasks[name := TaskContent(clock.createdIso, d)]
      && o.files.status == Some(StatusContent(d, clock.startedAt, name))
      && o.files.approvalPresent == fs.approvalPresent
      && o.files.response == fs.response
      && o.files.tasksDirExists
  {
    var sanitized := Sanitize(Join(args, " "));
    assert CreateTaskOutcome(fs, true, args, clock, None) == WriteTaskOutcome(fs, sanitized.value, clock, None);
    WriteTaskSteps(fs, sanitized.value, clock);
  }

  /**
   * `/task` interrupted between an open and its write: the task file, or the
   * status file, is left empty, and the writes before it persist.
   */
  lemma InterruptedTaskWrites(fs: Files, args: seq<string>, clock: Clock)
    requires args != [] && Sanitize(Join(args, " ")).Ok?
    ensures var name := TaskFileName(clock.fileStamp);
      var o := CreateTaskOutcome(fs, true, args, clock, Some(2));
      o.reply == GenericError && o.files == fs.(tasksDirExists := true, tasks := fs.tasks[name := ""])
    ensures var name := TaskFileName(clock.fileStamp);
      var d := Sanitize(Join(args, " ")).value;
      var o := CreateTaskOutcome(fs, true, args, clock, Some(4));
      && o.reply == GenericError
      && o.files == fs.(tasksDirExists := true, tasks := fs.tasks[name := TaskContent(clock.createdIso, d)], status := Some(""))
  {
    var sanitized := Sanitize(Join(args, " "));
    assert CreateTaskOutcome(fs, true, args, clock, Some(2)) == WriteTaskOutcome(fs, sanitized.value, clock, Some(2));
    assert CreateTaskOutcome(fs, true, args, clock, Some(4)) == WriteTaskOutcome(fs, sanitized.value, clock, Some(4));
    WriteTaskSteps(fs, sanitized.value, clock);
  }

  /** The files after the writes of an accepted description, when they all succeed and when a write raises. */
  lemma WriteTaskSteps(fs: Files, d: string, clock: Clock)
    ensures var name := TaskFileName(clock.fileStamp);
      var tasks := fs.tasks[name := TaskContent(clock.createdIso, d)];
      && WriteTaskOutcome(fs, d, clock, None)
         == Outcome(fs.(tasksDirExists := true, tasks := tasks, status := Some(StatusContent(d, clock.startedAt, name))), TaskCreated(d, name))
      && WriteTaskOutcome(fs, d, clock, Some(2)) == Outcome(fs.(tasksDirExists := true, tasks := fs.tasks[name := ""]), GenericError)
      && WriteTaskOutcome(fs, d, clock, Some(4)) == Outcome(fs.(tasksDirExists := true, tasks := tasks, status := Some("")), GenericError)
  {
    var name := TaskFileName(clock.fileStamp);
    assert fs.tasks[name := ""][name := TaskContent(clock.createdIso, d)] == fs.tasks[name := TaskContent(clock.createdIso, d)];
  }

  /** With a fresh timestamp the task directory grows by exactly one file. */
  lemma CreateTaskAddsOneFile(fs: Files, args: seq<string>, clock: Clock)
    requires args != [] && Sanitize(Join(args, " ")).Ok?
    requires TaskFileName(clock.fileStamp) !in fs.tasks
    ensures |CreateTaskOutcome(fs, true, args, clock, None).files.tasks| == |fs.tasks| + 1
  {
    CreateTaskSuccess(fs, args, clock);
  }

  /** The task file name depends on the clock alone: two accepted tasks at the same instant use the same file. */
  lemma TaskFileNameIgnoresText(fs: Files, args1: seq<string>, args2: seq<string>, clock: Clock)
    requires args1 != [] && Sanitize(Join(args1, " ")).Ok?
    requires args2 != [] && Sanitize(Join(args2, " ")).Ok?
    ensures CreateTaskOutcome(fs, true, args1, clock, None).files.tasks.Keys
         == CreateTaskOutcome(fs, true, args2, clock, None).files.tasks.Keys
  {
    CreateTaskSuccess(fs, args1, clock);
    CreateTaskSuccess(fs, args2, clock);
  }

  /** Resolving an open gate writes exactly the decision word and removes the approval file; nothing else changes. */
  lemma ResolveClosesGate(fs: Files, decision: Decision)
    requires fs.approvalPresent
    ensures ResolveOutcome(fs, true, decision, None)
         == Outcome(fs.(response := Some(decision.Word()), approvalPresent := false), Resolved(decision))
  {
  }

  /** With no approval file, `/approve` and `/reject` change nothing. */
  lemma ResolveWithoutGateIsNoOp(fs: Files, decision: Decision, failAt: Option<nat>)
    requires !fs.approvalPresent
    ensures ResolveOutcome(fs, true, decision, failAt) == Outcome(fs, NoPendingApprovals)
  {
  }

  /** A second `/approve` or `/reject` after a completed one is a no-op. */
  lemma ResolveTwiceIsNoOp(fs: Files, first: Decision, second: Decision, failAt: Option<nat>)
    requires ResolveOutcome(fs, true, first, None).reply.Resolved?
    ensures var after := ResolveOutcome(fs, true, first, None).files;
      ResolveOutcome(after, true, second, failAt) == Outcome(after, NoPendingApprovals)
  {
  }

  /**
   * Closing the gate is two steps, not one: when the unlink fails the response
   * file already holds the decision while the approval file is still present,
   * and a later `/reject` then overwrites an `APPROVED` already written.
   */
  lemma ResolveIsNotAtomic(fs: Files)
    requires fs.approvalPresent
    ensures var half := ResolveOutcome(fs, true, Decision.Approve, Some(2)).files;
      && half.response == Some("APPROVED") && half.approvalPresent
      && ResolveOutcome(half, true, Decision.Reject, None).files.response == Some("REJECTED")
  {
  }

  /**
   * A write of the response file that fails after its open truncated the file
   * leaves the response empty with the gate still open.
   */
  lemma InterruptedWriteEmptiesResponse(fs: Files, decision: Decision)
    requires fs.approvalPresent
    ensures ResolveOutcome(fs, true, decision, Some(1)) == Outcome(fs.(response := Some("")), GenericError)
  {
  }

  /**
   * A fault in the first file operation of a handler (creating the task
   * directory, opening the response file) leaves every file as it was.
   */
  lemma FirstFaultChangesNothing(fs: Files, authorized: bool, args: seq<string>, clock: Clock, decision: Decision)
    ensures CreateTaskOutcome(fs, authorized, args, clock, Some(0)).files == fs
    ensures ResolveOutcome(fs, authorized, decision, Some(0)).files == fs
  {
  }

  /** No handler opens the approval gate: only the outside agent creates the approval file. */
  lemma HandlersNeverOpenGate(fs: Files, authorized: bool, args: seq<string>, clock: Clock, decision: Decision, failAt: Option<nat>)
    requires !fs.approvalPresent
    ensures !CreateTaskOutcome(fs, authorized, args, clock, failAt).files.approvalPresent
    ensures !ResolveOutcome(fs, authorized, decision, failAt).files.approvalPresent
  {
  }

  /** `/status` reports the status file and the gate as they are, unless reading the status file raised. */
  lemma StatusReportsFiles(fs: Files, failAt: Option<nat>)
    requires fs.status.None? || failAt != Some(0)
    ensures StatusReply(fs, true, failAt) == StatusReport(fs.status, fs.approvalPresent)
  {
  }
}

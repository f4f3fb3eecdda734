/**
 * Start-up configuration of the control bot (bot.py): the environment it
 * reads and `validate_configuration`, which lists every missing setting in
 * a fixed order and makes the process exit when the list is not empty.
 */
module BotConfig {
  import opened Wrappers

  /** The environment variables the bot reads; `None` is an unset variable. */
  datatype Env = Env(
    botToken: Option<string>,      // TELEGRAM_BOT_TOKEN
    userId: Option<string>,        // TELEGRAM_USER_ID
    statusFile: Option<string>,    // CLAUDE_STATUS_FILE
    approvalFile: Option<string>,  // CLAUDE_APPROVAL_FILE
    responseFile: Option<string>,  // CLAUDE_RESPONSE_FILE
    tasksDir: Option<string>       // CLAUDE_TASKS_DIR
  )

  /** Python falsiness of an `Optional[str]`: `None` and `""` are both "not set". */
  predicate IsBlank(v: Option<string>) {
    v.None? || v.value == ""
  }

  /**
   * `str(Path(raw)) == '.'` for a POSIX path: the text is relative and every
   * '/'-separated segment is empty or ".". In particular `Path('')`, which
   * is what an unset path variable becomes through `os.getenv(name, '')`,
   * is `'.'`. (`not Path(...)` is never true: a path object is always truthy.)
   */
  predicate DenotesCurrentDir(raw: string) {
    && (raw == [] || raw[0] != '/')
    && (forall i :: 0 <= i < |raw| ==> raw[i] == '.' || raw[i] == '/')
    && (forall i :: 0 <= i < |raw| - 1 ==> !(raw[i] == '.' && raw[i + 1] == '.'))
  }

  /** The text of a path variable as `os.getenv(name, '')` returns it. */
  function PathText(v: Option<string>): string {
    v.GetOr("")
  }

  /** The six configuration errors, in the order `validate_configuration` checks them. */
  datatype ConfigError =
    | BotTokenUnset
    | UserIdUnset
    | StatusFileUnset
    | ApprovalFileUnset
    | ResponseFileUnset
    | TasksDirUnset
  {
    /** Position of the check in `validate_configuration`. */
    function Rank(): nat {
      match this
      case BotTokenUnset => 0
      case UserIdUnset => 1
      case StatusFileUnset => 2
      case ApprovalFileUnset => 3
      case ResponseFileUnset => 4
      case TasksDirUnset => 5
    }

    /** The logged text of the error. */
    function Message(): string {
      match this
      case BotTokenUnset => "TELEGRAM_BOT_TOKEN not set"
      case UserIdUnset => "TELEGRAM_USER_ID not set - bot would be open to ALL users!"
      case StatusFileUnset => "CLAUDE_STATUS_FILE not set"
      case ApprovalFileUnset => "CLAUDE_APPROVAL_FILE not set"
      case ResponseFileUnset => "CLAUDE_RESPONSE_FILE not set"
      case TasksDirUnset => "CLAUDE_TASKS_DIR not set"
    }
  }

  /** Each logged text names one setting: different errors have different texts. */
  lemma MessagesIdentifySetting(e1: ConfigError, e2: ConfigError)
    ensures e1 != e2 ==> e1.Message() != e2.Message()
  {
    MessageShape(e1);
    MessageShape(e2);
  }

  /** Length and one character of each text, enough to tell the six apart. */
  lemma MessageShape(e: ConfigError)
    ensures var m := e.Message();
      match e
      case BotTokenUnset => |m| == 26 && m[0] == 'T'
      case UserIdUnset => |m| > 28
      case StatusFileUnset => |m| == 26 && m[0] == 'C'
      case ApprovalFileUnset => |m| == 28 && m[7] == 'A'
      case ResponseFileUnset => |m| == 28 && m[7] == 'R'
      case TasksDirUnset => |m| == 24
  {
  }

  /** The condition under which each error is reported. */
  predicate Missing(env: Env, e: ConfigError) {
    match e
    case BotTokenUnset => IsBlank(env.botToken)
    case UserIdUnset => IsBlank(env.userId)
    case StatusFileUnset => DenotesCurrentDir(PathText(env.statusFile))
    case ApprovalFileUnset => DenotesCurrentDir(PathText(env.approvalFile))
    case ResponseFileUnset => DenotesCurrentDir(PathText(env.responseFile))
    case TasksDirUnset => DenotesCurrentDir(PathText(env.tasksDir))
  }

  /** The errors appear in check order, hence each at most once. */
  predicate InCheckOrder(errors: seq<ConfigError>) {
    forall i, j :: 0 <= i < j < |errors| ==> errors[i].Rank() < errors[j].Rank()
  }

  /** `errors` is what the first `k` checks report. */
  ghost predicate ReportsFirstChecks(env: Env, errors: seq<ConfigError>, k: nat) {
    && InCheckOrder(errors)
    && (forall e :: e in errors ==> e.Rank() < k)
    && (forall e: ConfigError :: e.Rank() < k ==> (e in errors <==> Missing(env, e)))
  }

  /**
   * One check of `validate_configuration`: the error is appended exactly when
   * its setting is missing, so a report of the first `k` checks becomes a
   * report of the first `k + 1`.
   */
  method Check(env: Env, errors: seq<ConfigError>, e: ConfigError) returns (errors': seq<ConfigError>)
    requires ReportsFirstChecks(env, errors, e.Rank())
    ensures errors' == if Missing(env, e) then errors + [e] else errors
    ensures ReportsFirstChecks(env, errors', e.Rank() + 1)
  {
    errors' := errors;
    if Missing(env, e) {
      errors' := errors + [e];
      forall i, j | 0 <= i < j < |errors'| ensures errors'[i].Rank() < errors'[j].Rank() {
        if j == |errors| {
          assert errors'[i] in errors;
        }
      }
    }
  }

  /** A report of all six checks lists exactly the missing settings. */
  lemma ReportAllChecks(env: Env, errors: seq<ConfigError>)
    requires ReportsFirstChecks(env, errors, 6)
    ensures forall e :: e in errors <==> Missing(env, e)
  {
    forall e: ConfigError ensures e in errors <==> Missing(env, e) {
      assert e.Rank() < 6;
    }
  }

  /**
   * `validate_configuration`: one error per missing setting, in check order;
   * `exits` is the `sys.exit(1)` taken exactly when the list is not empty.
   */
  method ValidateConfiguration(env: Env) returns (errors: seq<ConfigError>, exits: bool)
    ensures forall e :: e in errors <==> Missing(env, e)
    ensures InCheckOrder(errors)
    ensures exits <==> exists e :: Missing(env, e)
  {
    errors := [];
    errors := Check(env, errors, BotTokenUnset);
    errors := Check(env, errors, UserIdUnset);
    errors := Check(env, errors, StatusFileUnset);
    errors := Check(env, errors, ApprovalFileUnset);
    errors := Check(env, errors, ResponseFileUnset);
    errors := Check(env, errors, TasksDirUnset);
    ReportAllChecks(env, errors);
    exits := errors != [];
    if exits {
      assert errors[0] in errors;
    }
  }

  /** An unset path variable is reported: `Path('')` is `'.'`. */
  lemma UnsetPathIsCurrentDir(v: Option<string>)
    requires v.None?
    ensures DenotesCurrentDir(PathText(v))
  {
  }

  /** Spellings of the current directory are reported too; an absolute path or ".." is not. */
  lemma CurrentDirSpellings()
    ensures DenotesCurrentDir(".") && DenotesCurrentDir("./") && DenotesCurrentDir("./.")
    ensures !DenotesCurrentDir("/") && !DenotesCurrentDir("..") && !DenotesCurrentDir("status.txt")
  {
    assert "status.txt"[0] == 's';
    assert ".."[0] == '.' && ".."[1] == '.';
  }
}

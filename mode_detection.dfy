/**
 * `detect_execution_mode` of the dual-mode bot (bot_v3.py): a scan of the
 * host's process list for a running agent. The process list is an input
 * sequence of the records `psutil.process_iter(['name', 'cmdline'])` yields.
 */
module ModeDetection {
  import opened Wrappers
  import opened Text

  /** The two execution backends. */
  datatype Mode = Local | Cloud {

    /** The string the bot stores and compares: "local" or "cloud". */
    function Name(): string {
      match this
      case Local => "local"
      case Cloud => "cloud"
    }
  }

  /**
   * One process record. `readable` is false when inspecting the record raises
   * `NoSuchProcess` or `AccessDenied` (the exceptions the loop skips);
   * `name` and `cmdline` are `None` where psutil could not read them.
   */
  datatype ProcessInfo = ProcessInfo(readable: bool, name: Option<string>, cmdline: Option<seq<string>>)

  /** The result of a scan: a mode, or the `AttributeError` a record without a name raises. */
  datatype Probe = Detected(mode: Mode) | ProbeRaised

  /** `'claude' in ' '.join(cmdline or []).lower()`. */
  predicate CmdlineMentionsClaude(p: ProcessInfo) {
    Contains(Lower(Join(p.cmdline.GetOr([]), " ")), "claude")
  }

  /** A record that makes the scan answer "local". */
  predicate SignalsAgent(p: ProcessInfo) {
    p.readable && (CmdlineMentionsClaude(p) || (p.name.Some? && Contains(Lower(p.name.value), "code")))
  }

  /**
   * A record that makes the scan raise: its command line does not mention the
   * agent, so `name.lower()` is evaluated, and its name is `None`. The
   * `AttributeError` is not one of the skipped exceptions.
   */
  predicate BreaksScan(p: ProcessInfo) {
    p.readable && !CmdlineMentionsClaude(p) && p.name.None?
  }

  /** What the scan returns for a process list, record by record from the front. */
  function ProbeOf(procs: seq<ProcessInfo>): Probe {
    if procs == [] then Detected(Cloud)
    else if SignalsAgent(procs[0]) then Detected(Local)
    else if BreaksScan(procs[0]) then ProbeRaised
    else ProbeOf(procs[1..])
  }

  /** `detect_execution_mode`: the first record naming the agent decides "local"; none at all means "cloud". */
  method DetectExecutionMode(procs: seq<ProcessInfo>) returns (probe: Probe)
    ensures probe == ProbeOf(procs)
  {
    for i := 0 to |procs|
      invariant ProbeOf(procs[i..]) == ProbeOf(procs)
    {
      assert procs[i..][1..] == procs[i + 1..];
      var proc := procs[i];
      if proc.readable {
        var cmdline := Join(proc.cmdline.GetOr([]), " ");
        if Contains(Lower(cmdline), "claude") {
          return Detected(Local);
        }
        if proc.name.None? {
          return ProbeRaised;
        }
        if Contains(Lower(proc.name.value), "code") {
          return Detected(Local);
        }
      }
    }
    assert procs[|procs|..] == [];
    return Detected(Cloud);
  }

  /** No record before index `i` breaks the scan. */
  predicate NoBreakBefore(procs: seq<ProcessInfo>, i: int) {
    forall j :: 0 <= j < i && j < |procs| ==> !BreaksScan(procs[j])
  }

  /** The scan answers "local" exactly when some record signals the agent and none before it breaks the scan. */
  lemma {:induction false} ProbeLocalIff(procs: seq<ProcessInfo>)
    ensures ProbeOf(procs) == Detected(Local)
        <==> exists i :: 0 <= i < |procs| && SignalsAgent(procs[i]) && NoBreakBefore(procs, i)
  {
    if procs != [] {
      var rest := procs[1..];
      ProbeLocalIff(rest);
      if exists i :: 0 <= i < |procs| && SignalsAgent(procs[i]) && NoBreakBefore(procs, i) {
        var i :| 0 <= i < |procs| && SignalsAgent(procs[i]) && NoBreakBefore(procs, i);
        if i > 0 && !SignalsAgent(procs[0]) {
          assert SignalsAgent(rest[i - 1]) && NoBreakBefore(rest, i - 1);
        }
      }
      if ProbeOf(procs) == Detected(Local) && !SignalsAgent(procs[0]) {
        var i :| 0 <= i < |rest| && SignalsAgent(rest[i]) && NoBreakBefore(rest, i);
        assert SignalsAgent(procs[i + 1]) && NoBreakBefore(procs, i + 1);
      }
    }
  }

  /** The scan answers "cloud" exactly when no record signals the agent or breaks the scan. */
  lemma {:induction false} ProbeCloudIff(procs: seq<ProcessInfo>)
    ensures ProbeOf(procs) == Detected(Cloud)
        <==> forall i :: 0 <= i < |procs| ==> !SignalsAgent(procs[i]) && !BreaksScan(procs[i])
  {
    if procs != [] {
      var rest := procs[1..];
      ProbeCloudIff(rest);
      if forall i :: 0 <= i < |procs| ==> !SignalsAgent(procs[i]) && !BreaksScan(procs[i]) {
        assert forall i :: 0 <= i < |rest| ==> rest[i] == procs[i + 1];
      }
    }
  }

  /** When every record has a name the scan never raises: the answer is one of the two modes. */
  lemma {:induction false} ProbeTotalWhenNamed(procs: seq<ProcessInfo>)
    requires forall i :: 0 <= i < |procs| ==> procs[i].name.Some?
    ensures ProbeOf(procs).Detected?
  {
    if procs != [] {
      ProbeTotalWhenNamed(procs[1..]);
    }
  }

  /**
   * Names are not needed for an answer: the `or` stops before `name.lower()`
   * on a record whose command line mentions the agent, and a record whose
   * inspection raises is skipped before its name is looked at.
   */
  lemma NamelessRecordsCanBeAnswered()
    ensures ProbeOf([ProcessInfo(true, None, Some(["claude"]))]) == Detected(Local)
    ensures ProbeOf([ProcessInfo(false, None, None)]) == Detected(Cloud)
  {
    var p := ProcessInfo(true, None, Some(["claude"]));
    assert Join(["claude"], " ") == "claude";
    assert Lower("claude") == "claude";
    assert OccursAt("claude", "claude", 0);
    assert SignalsAgent(p);
  }

  /** A record whose inspection raises `NoSuchProcess` or `AccessDenied` is skipped wherever it appears. */
  lemma {:induction false} ProbeSkipsUnreadable(before: seq<ProcessInfo>, p: ProcessInfo, after: seq<ProcessInfo>)
    requires !p.readable
    ensures ProbeOf(before + [p] + after) == ProbeOf(before + after)
  {
    if before == [] {
      assert before + [p] + after == [p] + after;
      assert ([p] + after)[1..] == after;
      assert before + after == after;
    } else {
      assert (before + [p] + after)[0] == before[0];
      assert (before + [p] + after)[1..] == before[1..] + [p] + after;
      assert (before + after)[0] == before[0];
      assert (before + after)[1..] == before[1..] + after;
      ProbeSkipsUnreadable(before[1..], p, after);
    }
  }
}

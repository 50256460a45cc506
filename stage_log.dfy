/** How the result of one spawned command is folded into a request's log:
    `execWithLogs` (the portrait and add-text routes) and the inline promise
    of the /cut-video route. */
module StageLog {
  import opened Artifacts
  import opened Commands

  /** What `exec` reports for one command: whether it failed (non-zero exit,
      timeout or spawn error), the two captured streams, the error's own
      message, and the files the command left on disk. */
  datatype ToolRun = ToolRun(
    failed: bool,
    stdout: string,
    stderr: string,
    message: string,
    writes: set<FilePath>)

  /** The external tools: given a command and the files present when it
      starts, what the run reports. */
  type Tool = (Command, set<FilePath>) -> ToolRun

  /** How the promise returned by `execWithLogs` settles. */
  datatype Settled = Resolved(stdout: string) | Rejected(message: string)

  /** The log entries `execWithLogs` appends for one run. */
  function ExecEntries(cmd: Command, run: ToolRun): (e: seq<string>)
    ensures 1 <= |e| <= 3
    ensures e[0] == "Command: " + CommandLine(cmd)
    ensures |e| == 1 + (if run.stdout != "" then 1 else 0) + (if run.stderr != "" then 1 else 0)
    ensures run.stdout != "" ==> e[1] == "STDOUT: " + run.stdout
    ensures run.stderr != "" ==> e[|e| - 1] == "STDERR: " + run.stderr
  {
    ["Command: " + CommandLine(cmd)]
      + (if run.stdout != "" then ["STDOUT: " + run.stdout] else [])
      + (if run.stderr != "" then ["STDERR: " + run.stderr] else [])
  }

  /** `stderr || stdout || error.message`: the first non-empty of the three. */
  function FailureReason(run: ToolRun): (r: string)
    ensures run.stderr != "" ==> r == run.stderr
    ensures run.stderr == "" && run.stdout != "" ==> r == run.stdout
    ensures run.stderr == "" && run.stdout == "" ==> r == run.message
    ensures r == "" <==> run.stderr == "" && run.stdout == "" && run.message == ""
  {
    if run.stderr != "" then run.stderr
    else if run.stdout != "" then run.stdout
    else run.message
  }

  /** `execWithLogs` rejects with the failure reason or resolves with stdout. */
  function Settle(run: ToolRun): (s: Settled)
    ensures s.Rejected? <==> run.failed
    ensures s.Rejected? ==> s.message == FailureReason(run)
    ensures s.Resolved? ==> s.stdout == run.stdout
  {
    if run.failed then Rejected(FailureReason(run)) else Resolved(run.stdout)
  }

  /** The one entry the /cut-video route logs for a run: `stderr || stdout`
      on failure, `stdout` on success (either may be empty). */
  function InlineEntry(run: ToolRun): (e: string)
    ensures run.failed && run.stderr != "" ==> e == run.stderr
    ensures (!run.failed || run.stderr == "") ==> e == run.stdout
  {
    if run.failed && run.stderr != "" then run.stderr else run.stdout
  }

  /** Entries that begin with different labels are different. */
  lemma LabelsApart(a: string, b: string, x: string, y: string)
    requires |a| == |b| && a != b
    ensures a + x != b + y
  {
    assert (a + x)[..|a|] == a;
    assert (b + y)[..|b|] == b;
  }

  /** Each STDOUT or STDERR entry is present exactly when its stream is
      non-empty, and no other entry follows the command line. */
  lemma ExecEntriesExact(cmd: Command, run: ToolRun)
    ensures var e := ExecEntries(cmd, run);
      && (("STDOUT: " + run.stdout) in e <==> run.stdout != "")
      && (("STDERR: " + run.stderr) in e <==> run.stderr != "")
      && forall k :: 1 <= k < |e| ==>
           e[k] == "STDOUT: " + run.stdout || e[k] == "STDERR: " + run.stderr
  {
    var line := CommandLine(cmd);
    var out, err := "STDOUT: " + run.stdout, "STDERR: " + run.stderr;
    LabelsApart("STDOUT: ", "STDERR: ", run.stdout, run.stderr);
    LabelsApart("Command:", "STDOUT: ", " " + line, run.stdout);
    LabelsApart("Command:", "STDERR: ", " " + line, run.stderr);
    assert "Command: " + line == "Command:" + (" " + line);
    var e := ExecEntries(cmd, run);
    if run.stdout == "" && run.stderr == "" {
      assert e == ["Command: " + line];
    } else if run.stdout == "" {
      assert e == ["Command: " + line, err];
    } else if run.stderr == "" {
      assert e == ["Command: " + line, out];
    } else {
      assert e == ["Command: " + line, out, err];
    }
  }
}

/** How a run ends, in its result and in its log's last event. */
module Results {
  import opened Events
  import opened Numerals

  datatype Reason =
    | NotStarted(error: string)
    | SetupFailed(code: int, cmd: string)
    | AllPassed
    | NoAgentActivity
    | VerifyFailed(cmds: seq<string>)

  const PASSED := "passed"
  const FAILED := "failed"
  const ERROR := "error"

  /** The failed commands, one after the other. */
  function Listing(cmds: seq<string>): string {
    if cmds == [] then "" else Listing(cmds[..|cmds| - 1]) + "," + cmds[|cmds| - 1]
  }

  /** The reason as the result carries it. */
  function ReasonText(r: Reason): string {
    match r
    case NotStarted(e) => e
    case SetupFailed(code, cmd) => "setup command failed (exit " + Decimal(code) + "): " + cmd
    case AllPassed => "all verify checks passed"
    case NoAgentActivity => "no agent activity (verify ran on untouched workspace)"
    case VerifyFailed(cmds) => "verify failed: " + Listing(cmds)
  }

  /** The reason as the log carries it: a failed start is spelled out. */
  function LoggedReason(r: Reason): string {
    match r
    case NotStarted(e) => "sandbox start: " + e
    case _ => ReasonText(r)
  }

  lemma ReasonTexts(cmds: seq<string>)
    ensures LoggedReason(AllPassed) == ReasonText(AllPassed) == "all verify checks passed"
    ensures LoggedReason(NoAgentActivity) == ReasonText(NoAgentActivity) ==
            "no agent activity (verify ran on untouched workspace)"
    ensures LoggedReason(VerifyFailed(cmds)) == ReasonText(VerifyFailed(cmds)) == "verify failed: " + Listing(cmds)
  {
  }

  function FinishData(result: string, reason: string): Data {
    map["result" := Text(result), "reason" := Text(reason)]
  }

  /** A command's whole result, before its output is capped. */
  function CommandData(cmd: string, code: int, stdout: string, stderr: string, durationMs: nat): Data {
    map["cmd" := Text(cmd), "exit_code" := Num(code), "stdout" := Text(stdout), "stderr" := Text(stderr),
        "duration_ms" := Num(durationMs)]
  }

  lemma ResultReports(cmd: string, code: int, stdout: string, stderr: string, durationMs: nat)
    ensures var d := CommandData(cmd, code, stdout, stderr, durationMs);
      && "cmd" in d && d["cmd"] == Text(cmd) && "exit_code" in d && d["exit_code"] == Num(code)
      && "stdout" in d && d["stdout"] == Text(stdout) && "stderr" in d && d["stderr"] == Text(stderr)
      && "duration_ms" in d && d["duration_ms"] == Num(durationMs)
      && "stdout" + "_truncated" !in d && "stderr" + "_truncated" !in d
  {
    assert |"stdout" + "_truncated"| == |"stderr" + "_truncated"| == 16;
  }

  /** run_started, without the network policy. */
  function StartedData(taskId: string, image: string, cid: string): Data {
    map["task_id" := Text(taskId), "image" := Text(image), "container_id" := Text(cid)]
  }
}

/**
 * `IntelligentCommandEngine`: the direct command path. A command is validated
 * first; a denied one is answered at once and never run. An allowed one is
 * run by the host shell, whose outcome is an input to the model, then its
 * output is analysed, follow-ups are predicted and the command is logged.
 */
module CommandEngine {
  import opened Wrappers
  import opened Text
  import opened Validator
  import Predictor
  import opened Analyzer

  /** The wall-clock deadline given to every child process, in seconds. */
  const TimeoutSeconds := 30

  const TimeoutMessage := "Command timed out after 30 seconds"

  /** Return code reported when no real one exists (timeout or spawn failure). */
  const NoReturnCode := -1

  /**
   * What happened to the child process: it exited with a code and its decoded
   * output streams, it outlived the deadline and was killed, or it could not
   * be started. Durations are whole seconds.
   */
  datatype ProcessOutcome =
    | Exited(returnCode: int, stdout: string, stderr: string, elapsed: nat)
    | TimedOut
    | SpawnFailed(message: string, elapsed: nat)

  /** The record `_execute_command_async` returns. */
  datatype ExecResult = ExecResult(success: bool, output: string, error: string, returnCode: int, executionTime: nat)

  function ExecuteOutcome(o: ProcessOutcome): (r: ExecResult)
    ensures r.success <==> o.Exited? && o.returnCode == 0
    ensures r.success <==> r.returnCode == 0
    ensures o.Exited? ==> r.output == o.stdout && r.error == o.stderr && r.returnCode == o.returnCode
    ensures o.TimedOut? ==>
      !r.success && r.output == "" && r.error == TimeoutMessage
      && r.returnCode == NoReturnCode && r.executionTime == TimeoutSeconds
    ensures o.SpawnFailed? ==>
      !r.success && r.output == "" && r.error == o.message && r.returnCode == NoReturnCode
  {
    match o
    case Exited(code, out, err, t) => ExecResult(code == 0, out, err, code, t)
    case TimedOut => ExecResult(false, "", TimeoutMessage, NoReturnCode, TimeoutSeconds)
    case SpawnFailed(msg, t) => ExecResult(false, "", msg, NoReturnCode, t)
  }

  /** One logged command; the timestamp and the caller's context are left out. */
  datatype HistoryEntry = HistoryEntry(command: string, success: bool)

  /**
   * The answer of `process_command`. `insights` is `None` where the source
   * answers `{}`; `executionTime` is `None` where the answer has no such key.
   */
  datatype Response = Response(
    success: bool,
    output: string,
    error: string,
    securityCheck: Validation,
    predictions: seq<string>,
    insights: Option<Insights>,
    executionTime: Option<nat>)

  const BlockedPrefix := "Command blocked for security: "
  const SecurityViolation := "Security violation"

  /** The answer to a denied command; it depends on the verdict alone. */
  function Blocked(v: Validation): (r: Response)
    ensures !r.success && r.error == SecurityViolation
    ensures r.predictions == [] && r.insights.None? && r.securityCheck == v
  {
    Response(false, BlockedPrefix + Join(", ", v.warnings), SecurityViolation, v, [], None, None)
  }

  /**
   * A denied command gets the blocked answer, whatever the process would have
   * done, and leaves the history unchanged. An allowed command is answered
   * from the process outcome: success exactly when it exited with code 0, the
   * insights of its output, predictions as the predictor promises them, and
   * one history entry appended.
   */
  method ProcessCommand(history: seq<HistoryEntry>, command: string, outcome: ProcessOutcome)
    returns (resp: Response, history': seq<HistoryEntry>)
    ensures resp.securityCheck == Validate(command)
    ensures Denied(command) ==> resp == Blocked(Validate(command)) && history' == history
    ensures !Denied(command) ==>
      && (resp.success <==> outcome.Exited? && outcome.returnCode == 0)
      && resp.output == ExecuteOutcome(outcome).output
      && resp.error == ExecuteOutcome(outcome).error
      && resp.executionTime == Some(ExecuteOutcome(outcome).executionTime)
      && resp.insights == Some(AnalyzeOutput(resp.output, command))
      && history' == history + [HistoryEntry(command, resp.success)]
    ensures !Denied(command) ==>
      && Predictor.NoDuplicates(resp.predictions)
      && |resp.predictions| == Min(Predictor.MaxPredictions, |Predictor.Candidates(command)|)
      && (forall x :: x in resp.predictions ==>
            x != command && Predictor.SuggestedBy(Lower(command), Predictor.CommandPatterns, x))
  {
    var check := Validate(command);
    if !check.isAllowed {
      return Blocked(check), history;
    }
    var result := ExecuteOutcome(outcome);
    var predictions := Predictor.PredictNextCommands(command);
    var insights := AnalyzeOutput(result.output, command);
    history' := history + [HistoryEntry(command, result.success)];
    resp := Response(result.success, result.output, result.error, check, predictions,
                     Some(insights), Some(result.executionTime));
  }

  /** Python's `h[start:]`: a negative start counts from the end; both clamp. */
  function SliceFrom<T>(h: seq<T>, start: int): (r: seq<T>)
    ensures |r| <= |h| && r == h[|h| - |r|..]
  {
    var from := if start < 0 then Max(start + |h|, 0) else Min(start, |h|);
    h[from..]
  }

  /** The limit `get_command_history` uses when the caller gives none. */
  const DefaultHistoryLimit := 100

  /**
   * `get_command_history(limit)` is `history[-limit:]`: the last `limit`
   * entries for a positive limit (all of them when there are fewer), the whole
   * history for a limit of 0 (because `-0` is `0`), and all but the first
   * `-limit` entries for a negative limit. The limit defaults to 100.
   */
  function CommandHistory<T>(history: seq<T>, limit: int := DefaultHistoryLimit): (r: seq<T>)
    ensures limit > 0 ==> |r| == Min(limit, |history|)
    ensures limit == 0 ==> r == history
    ensures limit < 0 ==> |r| == |history| - Min(-limit, |history|)
    ensures limit >= |history| ==> r == history
    ensures r == history[|history| - |r|..]
  {
    SliceFrom(history, -limit)
  }
}

/**
 * The execution phase: each step is dispatched on its operation type to a
 * handler, the steps run in listed order until a critical step fails, and
 * the results are folded into a summary.
 *
 * What the external tools do is an input: for step number `k` the caller
 * supplies what the handler's tool call gave back and how long it took.
 */
module Executor {
  import opened Wrappers
  import opened Text
  import opened Workflow

  /** The handler `_execute_workflow_step` picks for an operation type. */
  datatype Handler = ReconHandler | VulnerabilityHandler | ToolHandler | NetworkHandler | GenericHandler

  function HandlerFor(op: OperationType): Handler {
    match op
    case Reconnaissance => ReconHandler
    case VulnerabilityScan => VulnerabilityHandler
    case ToolExecution => ToolHandler
    case NetworkAnalysis => NetworkHandler
    case Exploitation => GenericHandler
    case PostExploitation => GenericHandler
    case Reporting => GenericHandler
  }

  /** The external calls a handler can make. */
  datatype ToolCall =
    | NmapScan(target: string, scanType: string)
    | DirbScan(target: string)
    | MetasploitCommand(command: string)
    | SqlmapScan(target: string)
    | HydraAttack(target: string, service: string)
    | StartVulnerabilityScan(target: string)

  /**
   * A handler either calls a tool, or reaches for a method its collaborator
   * does not define, which raises `AttributeError` before anything runs.
   */
  datatype Route = Call(call: ToolCall) | MissingMethod(message: string)

  /** `IntelligentCommandEngine` defines no `execute_command`. */
  const CommandEngineMissing := "'IntelligentCommandEngine' object has no attribute 'execute_command'"

  /** `NetworkMonitor` defines no `get_network_info`. */
  const NetworkMonitorMissing := "'NetworkMonitor' object has no attribute 'get_network_info'"

  /** `parameters.get(key, default)`. */
  function Param(step: Step, key: string, default: string): string {
    if key in step.parameters then step.parameters[key] else default
  }

  /**
   * What the step's handler calls: reconnaissance picks nmap or dirb from the
   * command text, tool steps pick from the `tool` parameter, vulnerability
   * steps start a scan; everything else falls to the missing method.
   */
  function RouteFor(step: Step): (r: Route)
    ensures HandlerFor(step.operation) in {NetworkHandler, GenericHandler} ==> r.MissingMethod?
    ensures HandlerFor(step.operation) == VulnerabilityHandler ==> r.Call?
    ensures HandlerFor(step.operation) == ReconHandler ==>
      (r.Call? <==> Contains(step.command, "nmap") || Contains(step.command, "dirb"))
    ensures HandlerFor(step.operation) == ToolHandler ==>
      (r.Call? <==> "tool" in step.parameters
                    && step.parameters["tool"] in {"metasploit", "sqlmap", "hydra"})
    ensures r.MissingMethod? ==>
      r.message == if HandlerFor(step.operation) == NetworkHandler then NetworkMonitorMissing
                   else CommandEngineMissing
  {
    match HandlerFor(step.operation)
    case ReconHandler =>
      if Contains(step.command, "nmap") then
        Call(NmapScan(Param(step, "target", "127.0.0.1"), Param(step, "scan_type", "basic")))
      else if Contains(step.command, "dirb") then
        Call(DirbScan(Param(step, "target", "http://127.0.0.1")))
      else MissingMethod(CommandEngineMissing)
    case VulnerabilityHandler =>
      Call(StartVulnerabilityScan(Param(step, "target", "127.0.0.1")))
    case ToolHandler =>
      if "tool" in step.parameters && step.parameters["tool"] == "metasploit" then
        Call(MetasploitCommand(Param(step, "command", "version")))
      else if "tool" in step.parameters && step.parameters["tool"] == "sqlmap" then
        Call(SqlmapScan(Param(step, "target", "http://127.0.0.1")))
      else if "tool" in step.parameters && step.parameters["tool"] == "hydra" then
        Call(HydraAttack(Param(step, "target", "127.0.0.1"), Param(step, "service", "ssh")))
      else MissingMethod(CommandEngineMissing)
    case NetworkHandler => MissingMethod(NetworkMonitorMissing)
    case GenericHandler => MissingMethod(CommandEngineMissing)
  }

  /**
   * What a tool call gave back: its `success` and `output` entries (for the
   * vulnerability scanner, `output` is the scan id and `success` is unused),
   * or the message of the exception it raised.
   */
  datatype CallOutcome = Returned(success: bool, output: string) | Raised(message: string)

  /** A tool call's outcome and the whole seconds the step took. */
  datatype StepRun = StepRun(call: CallOutcome, elapsed: nat)

  /** The dictionary a handler hands back. */
  datatype HandlerResult = HandlerResult(success: bool, output: string, error: Option<string>, artifacts: seq<string>)

  /**
   * `_execute_workflow_step`: run the step's handler. An exception, whether
   * from a missing method or from the tool, becomes a failed result carrying
   * its message and no artifacts; a handler that returns names one artifact
   * after the step (none for generic steps) and no error.
   */
  function ExecuteStep(step: Step, call: CallOutcome): (r: HandlerResult)
    ensures r.error.Some? <==> RouteFor(step).MissingMethod? || call.Raised?
    ensures r.error.Some? ==> !r.success && r.output == "" && r.artifacts == []
    ensures RouteFor(step).MissingMethod? ==> r.error == Some(RouteFor(step).message)
    ensures RouteFor(step).Call? && call.Raised? ==> r.error == Some(call.message)
    ensures |r.artifacts| <= 1
    ensures r.error.None? && HandlerFor(step.operation) != GenericHandler ==> |r.artifacts| == 1
    ensures r.error.None? && HandlerFor(step.operation) in {ReconHandler, ToolHandler, GenericHandler} ==>
      r.success == call.success && r.output == call.output
    ensures r.error.None? && HandlerFor(step.operation) == VulnerabilityHandler ==> r.success
  {
    var effective := match RouteFor(step)
      case MissingMethod(m) => Raised(m)
      case Call(_) => call;
    match effective
    case Raised(m) => HandlerResult(false, "", Some(m), [])
    case Returned(ok, out) =>
      match HandlerFor(step.operation)
      case ReconHandler => HandlerResult(ok, out, None, ["recon_result_" + step.id + ".txt"])
      case VulnerabilityHandler =>
        HandlerResult(true,
          "Vulnerability scan started with ID: " + out + "\nTarget: " + Param(step, "target", "127.0.0.1"),
          None, ["vuln_scan_" + step.id + ".json"])
      case ToolHandler => HandlerResult(ok, out, None, ["tool_output_" + step.id + ".txt"])
      case NetworkHandler => HandlerResult(true, out, None, ["network_analysis_" + step.id + ".json"])
      case GenericHandler => HandlerResult(ok, out, None, [])
  }

  /** Network-analysis steps always fail, with the missing-method message. */
  lemma NetworkStepsFail(step: Step, call: CallOutcome)
    requires step.operation == NetworkAnalysis
    ensures !ExecuteStep(step, call).success
    ensures ExecuteStep(step, call).error == Some(NetworkMonitorMissing)
  {
  }

  /** The `ExecutionResult` recorded for a step. */
  function RecordStep(step: Step, run: StepRun): (r: StepResult)
    ensures r.stepId == step.id && r.executionTime == run.elapsed
    ensures r.success == ExecuteStep(step, run.call).success
    ensures |r.artifacts| <= 1
  {
    var h := ExecuteStep(step, run.call);
    StepResult(step.id, h.success, h.output, h.error, run.elapsed, h.artifacts)
  }

  /** The stop rule: a failed critical step ends the run. */
  predicate Halts(step: Step, r: StepResult) {
    !r.success && step.risk == Critical
  }

  /**
   * `rs` is what running `steps` from index `k` records: one result per step
   * in listed order, continuing past every step that does not halt, and
   * stopping early only right after one that does.
   */
  predicate RunsFrom(steps: seq<Step>, outcome: nat -> StepRun, k: nat, rs: seq<StepResult>) {
    && k + |rs| <= |steps|
    && (forall j :: 0 <= j < |rs| ==> rs[j] == RecordStep(steps[k + j], outcome(k + j)))
    && (forall j :: 0 <= j < |rs| - 1 ==> !Halts(steps[k + j], rs[j]))
    && (k + |rs| < |steps| ==> |rs| > 0 && Halts(steps[k + |rs| - 1], rs[|rs| - 1]))
  }

  function RunFrom(steps: seq<Step>, outcome: nat -> StepRun, k: nat): (rs: seq<StepResult>)
    requires k <= |steps|
    ensures RunsFrom(steps, outcome, k, rs)
    decreases |steps| - k
  {
    if k == |steps| then []
    else
      var r := RecordStep(steps[k], outcome(k));
      if Halts(steps[k], r) then [r]
      else
        var rest := RunFrom(steps, outcome, k + 1);
        RunsFromCons(steps, outcome, k, r, rest);
        [r] + rest
  }

  /** A step that does not halt, followed by a run of the remaining steps, is a run. */
  lemma RunsFromCons(steps: seq<Step>, outcome: nat -> StepRun, k: nat, r: StepResult, rest: seq<StepResult>)
    requires k < |steps| && r == RecordStep(steps[k], outcome(k)) && !Halts(steps[k], r)
    requires RunsFrom(steps, outcome, k + 1, rest)
    ensures RunsFrom(steps, outcome, k, [r] + rest)
  {
    var rs := [r] + rest;
    assert forall j :: 1 <= j < |rs| ==> rs[j] == rest[j - 1];
    forall j | 0 <= j < |rs|
      ensures rs[j] == RecordStep(steps[k + j], outcome(k + j))
    {
      if j > 0 {
        assert rest[j - 1] == RecordStep(steps[k + 1 + (j - 1)], outcome(k + 1 + (j - 1)));
      }
    }
    forall j | 0 <= j < |rs| - 1
      ensures !Halts(steps[k + j], rs[j])
    {
      if j > 0 {
        assert !Halts(steps[k + 1 + (j - 1)], rest[j - 1]);
      }
    }
  }

  /** The results of running a plan's steps from the first. */
  function RunSteps(steps: seq<Step>, outcome: nat -> StepRun): (rs: seq<StepResult>)
    ensures RunsFrom(steps, outcome, 0, rs)
    ensures |rs| <= |steps|
  {
    RunFrom(steps, outcome, 0)
  }

  /** Dropping the first result of a run that did not halt there leaves a run of the rest. */
  lemma RunsFromTail(steps: seq<Step>, outcome: nat -> StepRun, k: nat, rs: seq<StepResult>)
    requires k < |steps| && RunsFrom(steps, outcome, k, rs)
    requires |rs| > 0 && !Halts(steps[k], rs[0])
    ensures RunsFrom(steps, outcome, k + 1, rs[1..])
  {
    var rest := rs[1..];
    forall j | 0 <= j < |rest|
      ensures rest[j] == RecordStep(steps[k + 1 + j], outcome(k + 1 + j))
    {
      assert rest[j] == rs[j + 1];
    }
    forall j | 0 <= j < |rest| - 1
      ensures !Halts(steps[k + 1 + j], rest[j])
    {
      assert rest[j] == rs[j + 1];
    }
  }

  /** From any index, the stop rule allows exactly the results `RunFrom` records. */
  lemma {:induction false} RunsFromIsRunFrom(steps: seq<Step>, outcome: nat -> StepRun, k: nat, rs: seq<StepResult>)
    requires k <= |steps| && RunsFrom(steps, outcome, k, rs)
    ensures rs == RunFrom(steps, outcome, k)
    decreases |steps| - k
  {
    if k < |steps| {
      assert |rs| > 0;
      var r := RecordStep(steps[k], outcome(k));
      assert rs[0] == r;
      if Halts(steps[k], r) {
        assert |rs| == 1;
        assert rs == [r];
      } else {
        RunsFromTail(steps, outcome, k, rs);
        RunsFromIsRunFrom(steps, outcome, k + 1, rs[1..]);
        assert rs == [r] + rs[1..];
      }
    }
  }

  /** The stop rule pins the run down: there is only one sequence of results it allows. */
  lemma RunIsDetermined(steps: seq<Step>, outcome: nat -> StepRun, rs: seq<StepResult>)
    requires RunsFrom(steps, outcome, 0, rs)
    ensures rs == RunSteps(steps, outcome)
  {
    RunsFromIsRunFrom(steps, outcome, 0, rs);
  }

  /** A plan without critical steps runs every step. */
  lemma NoCriticalRunsAll(steps: seq<Step>, outcome: nat -> StepRun)
    requires forall s :: s in steps ==> s.risk != Critical
    ensures |RunSteps(steps, outcome)| == |steps|
  {
    assert forall j :: 0 <= j < |steps| ==> steps[j].risk != Critical;
  }

  /** Number of successful results. */
  function CountSuccesses(rs: seq<StepResult>): (n: nat)
    ensures n <= |rs|
    ensures n == |rs| <==> forall j :: 0 <= j < |rs| ==> rs[j].success
    ensures n == 0 <==> forall j :: 0 <= j < |rs| ==> !rs[j].success
  {
    if rs == [] then 0
    else
      var n := CountSuccesses(rs[1..]);
      assert forall j :: 1 <= j < |rs| ==> rs[j] == rs[1..][j - 1];
      (if rs[0].success then 1 else 0) + n
  }

  /** Positions of the successful results. */
  function SuccessIndices(rs: seq<StepResult>): set<nat> {
    set j: nat | j < |rs| && rs[j].success
  }

  /** Counting from the front agrees with counting from the back. */
  lemma {:induction false} CountSuccessesSnoc(rs: seq<StepResult>, r: StepResult)
    ensures CountSuccesses(rs + [r]) == CountSuccesses(rs) + (if r.success then 1 else 0)
  {
    if rs == [] {
      assert rs + [r] == [r];
    } else {
      assert (rs + [r])[0] == rs[0];
      assert (rs + [r])[1..] == rs[1..] + [r];
      CountSuccessesSnoc(rs[1..], r);
    }
  }

  /** The number of successful results is the number of positions holding one. */
  lemma {:induction false} CountIsSuccessIndices(rs: seq<StepResult>)
    ensures CountSuccesses(rs) == |SuccessIndices(rs)|
    decreases |rs|
  {
    if rs != [] {
      var init := rs[..|rs| - 1];
      var last := rs[|rs| - 1];
      assert rs == init + [last];
      assert forall j :: 0 <= j < |init| ==> rs[j] == init[j];
      CountIsSuccessIndices(init);
      CountSuccessesSnoc(init, last);
      assert |init| !in SuccessIndices(init);
      if last.success {
        assert SuccessIndices(rs) == SuccessIndices(init) + {|init|};
      } else {
        assert SuccessIndices(rs) == SuccessIndices(init);
      }
    }
  }

  /** Sum of the recorded execution times. */
  function TotalTime(rs: seq<StepResult>): nat {
    if rs == [] then 0 else rs[0].executionTime + TotalTime(rs[1..])
  }

  /** Total number of artifacts named by the results. */
  function ArtifactCount(rs: seq<StepResult>): nat {
    if rs == [] then 0 else |rs[0].artifacts| + ArtifactCount(rs[1..])
  }

  /** Each result names at most one artifact, so there are at most as many artifacts as results. */
  lemma {:induction false} ArtifactCountBound(rs: seq<StepResult>)
    requires forall j :: 0 <= j < |rs| ==> |rs[j].artifacts| <= 1
    ensures ArtifactCount(rs) <= |rs|
  {
    if rs != [] {
      assert forall j :: 0 <= j < |rs| - 1 ==> rs[1..][j] == rs[j + 1];
      ArtifactCountBound(rs[1..]);
    }
  }

  /** The execution summary. */
  datatype Summary = Summary(
    totalSteps: nat,
    successfulSteps: nat,
    failedSteps: int,
    totalExecutionTime: nat,
    successRate: real,
    results: seq<StepResult>,
    artifactsGenerated: nat)

  /** The percentage of `n` out of `total`, and 0 when there is nothing to count. */
  function SuccessRate(n: nat, total: nat): (rate: real)
    requires n <= total
    ensures total == 0 ==> rate == 0.0
    ensures 0.0 <= rate <= 100.0
    ensures rate == 100.0 <==> total > 0 && n == total
  {
    if total > 0 then
      assert n as real / total as real <= 1.0;
      (n as real / total as real) * 100.0
    else 0.0
  }

  /**
   * The summary of a run of `steps` that produced `rs`: steps without a
   * successful result, executed or not, count as failed; the rate is the
   * percentage of successful steps, and 0 for an empty plan.
   */
  function Summarize(steps: seq<Step>, rs: seq<StepResult>): (s: Summary)
    requires |rs| <= |steps|
    ensures s.totalSteps == |steps| && s.results == rs
    ensures s.successfulSteps <= |rs|
    ensures s.successfulSteps + s.failedSteps == s.totalSteps
    ensures s.failedSteps >= |steps| - |rs|
    ensures s.failedSteps == 0 <==> |rs| == |steps| && forall j :: 0 <= j < |rs| ==> rs[j].success
    ensures |steps| == 0 ==> s.successRate == 0.0
    ensures 0.0 <= s.successRate <= 100.0
    ensures s.successRate == 100.0 <==> |steps| > 0 && s.failedSteps == 0
    ensures s.successfulSteps == |SuccessIndices(rs)|
    ensures |steps| > 0 ==> s.successRate == (s.successfulSteps as real / |steps| as real) * 100.0
    ensures s.totalExecutionTime == TotalTime(rs)
    ensures s.artifactsGenerated == ArtifactCount(rs)
  {
    var n := CountSuccesses(rs);
    CountIsSuccessIndices(rs);
    Summary(|steps|, n, |steps| - n, TotalTime(rs), SuccessRate(n, |steps|), rs, ArtifactCount(rs))
  }

  /**
   * `_execution_phase` on a plan: run its steps under the stop rule and
   * summarise them.
   */
  function ExecutionPhase(plan: Plan, outcome: nat -> StepRun): (s: Summary)
    ensures RunsFrom(plan.steps, outcome, 0, s.results)
    ensures s.totalSteps == |plan.steps| && |s.results| <= s.totalSteps
    ensures s.successfulSteps + s.failedSteps == s.totalSteps
    ensures s.successfulSteps == |SuccessIndices(s.results)|
    ensures |plan.steps| > 0 ==> s.successRate == (s.successfulSteps as real / |plan.steps| as real) * 100.0
    ensures s.totalExecutionTime == TotalTime(s.results)
    ensures s.artifactsGenerated == ArtifactCount(s.results) <= |s.results|
  {
    var rs := RunSteps(plan.steps, outcome);
    ArtifactCountBound(rs);
    Summarize(plan.steps, rs)
  }

  /**
   * A failing critical first step ends the run at once: one result, nothing
   * successful, and every step of the plan counted as failed.
   */
  lemma CriticalFirstStepAborts(plan: Plan, outcome: nat -> StepRun)
    requires |plan.steps| > 0 && plan.steps[0].risk == Critical
    requires !RecordStep(plan.steps[0], outcome(0)).success
    ensures |ExecutionPhase(plan, outcome).results| == 1
    ensures ExecutionPhase(plan, outcome).successfulSteps == 0
    ensures ExecutionPhase(plan, outcome).failedSteps == |plan.steps|
  {
  }
}

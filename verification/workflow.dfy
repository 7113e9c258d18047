/**
 * The records of the workflow engine: steps, plans and step results, plus
 * the ordering invariant a plan's dependencies are meant to satisfy.
 */
module Workflow {
  import opened Wrappers

  /**
   * `OperationType`. The intent classifier answers with one of these too (it
   * only ever yields reconnaissance, vulnerability_scan, exploitation,
   * network_analysis and reporting).
   */
  datatype OperationType =
    | Reconnaissance
    | VulnerabilityScan
    | Exploitation
    | PostExploitation
    | Reporting
    | NetworkAnalysis
    | ToolExecution

  /** The enum's string value, as used in plan descriptions. */
  function OperationName(op: OperationType): string {
    match op
    case Reconnaissance => "reconnaissance"
    case VulnerabilityScan => "vulnerability_scan"
    case Exploitation => "exploitation"
    case PostExploitation => "post_exploitation"
    case Reporting => "reporting"
    case NetworkAnalysis => "network_analysis"
    case ToolExecution => "tool_execution"
  }

  /** `str.title()` of the string value (letters after `_` are capitalised too). */
  function OperationTitle(op: OperationType): string {
    match op
    case Reconnaissance => "Reconnaissance"
    case VulnerabilityScan => "Vulnerability_Scan"
    case Exploitation => "Exploitation"
    case PostExploitation => "Post_Exploitation"
    case Reporting => "Reporting"
    case NetworkAnalysis => "Network_Analysis"
    case ToolExecution => "Tool_Execution"
  }

  /** The risk words "low", "medium", "high" and "critical". */
  datatype RiskLevel = Low | Medium | High | Critical

  /** `WorkflowStep`; durations are in seconds. */
  datatype Step = Step(
    id: string,
    name: string,
    operation: OperationType,
    command: string,
    parameters: map<string, string>,
    dependencies: seq<string>,
    estimatedDuration: int,
    risk: RiskLevel,
    description: string)

  /** `WorkflowPlan` without its time-derived id and creation stamp. */
  datatype Plan = Plan(
    title: string,
    description: string,
    target: string,
    steps: seq<Step>,
    estimatedTotalTime: int,
    riskAssessment: RiskLevel)

  /** `ExecutionResult`: what one executed step produced. */
  datatype StepResult = StepResult(
    stepId: string,
    success: bool,
    output: string,
    errorMessage: Option<string>,
    executionTime: nat,
    artifacts: seq<string>)

  /** `sum(step.estimated_duration for step in steps)`. */
  function TotalDuration(steps: seq<Step>): int {
    if steps == [] then 0 else steps[0].estimatedDuration + TotalDuration(steps[1..])
  }

  /** No two steps share an id. */
  predicate UniqueIds(steps: seq<Step>) {
    forall i, j :: 0 <= i < j < |steps| ==> steps[i].id != steps[j].id
  }

  /** Step `i` has a step with id `d` before it. */
  predicate DefinedBefore(steps: seq<Step>, i: int, d: string)
    requires 0 <= i <= |steps|
  {
    exists j :: 0 <= j < i && steps[j].id == d
  }

  /** Every dependency names a step listed earlier in the plan. */
  predicate DependenciesPrecede(steps: seq<Step>) {
    forall i :: 0 <= i < |steps| ==>
      forall d :: d in steps[i].dependencies ==> DefinedBefore(steps, i, d)
  }
}

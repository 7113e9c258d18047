/**
 * The planning phase: a fixed step template per intent, assembled into a plan
 * with its total duration and approval flag.
 */
module Planner {
  import opened Wrappers
  import opened Workflow
  import Text
  import Keywords
  import Intent

  function PortScan(target: string): Step {
    Step("step_1", "Port Scan", Reconnaissance, "nmap -sS " + target,
         map["target" := target, "scan_type" := "syn"], [], 60, Low,
         "Perform SYN scan on " + target)
  }

  function ServiceDetection(target: string): Step {
    Step("step_2", "Service Detection", Reconnaissance, "nmap -sV -sC " + target,
         map["target" := target, "scan_type" := "service"], ["step_1"], 120, Low,
         "Detect services and versions on " + target)
  }

  function VulnerabilityScanStep(target: string): Step {
    Step("step_1", "Vulnerability Scan", VulnerabilityScan, "scan_target " + target,
         map["target" := target], [], 180, Medium,
         "Comprehensive vulnerability scan of " + target)
  }

  function NetworkAnalysisStep(target: string): Step {
    Step("step_1", "Network Analysis", NetworkAnalysis, "analyze_network",
         map["target" := target], [], 30, Low,
         "Analyze network topology and connectivity")
  }

  /**
   * The template for an intent: two reconnaissance scans, one vulnerability
   * scan, one network analysis, and nothing for any other intent. Every step
   * carries the target, has the intent's operation type, is never critical,
   * and only depends on steps listed before it.
   */
  function GenerateSteps(intent: OperationType, target: string): (steps: seq<Step>)
    ensures intent == Reconnaissance ==>
      && |steps| == 2
      && steps[0].id == "step_1" && steps[0].estimatedDuration == 60 && steps[0].risk == Low
      && steps[1].id == "step_2" && steps[1].estimatedDuration == 120 && steps[1].risk == Low
      && steps[0].dependencies == [] && steps[1].dependencies == ["step_1"]
    ensures intent == VulnerabilityScan ==>
      |steps| == 1 && steps[0].estimatedDuration == 180 && steps[0].risk == Medium
    ensures intent == NetworkAnalysis ==>
      |steps| == 1 && steps[0].estimatedDuration == 30 && steps[0].risk == Low
    ensures intent !in {Reconnaissance, VulnerabilityScan, NetworkAnalysis} <==> steps == []
    ensures forall s :: s in steps ==>
      s.operation == intent && s.risk != Critical
      && "target" in s.parameters && s.parameters["target"] == target
    ensures UniqueIds(steps) && DependenciesPrecede(steps)
  {
    match intent
    case Reconnaissance =>
      var steps := [PortScan(target), ServiceDetection(target)];
      assert steps[0].id == "step_1";
      assert DefinedBefore(steps, 1, "step_1");
      steps
    case VulnerabilityScan => [VulnerabilityScanStep(target)]
    case NetworkAnalysis => [NetworkAnalysisStep(target)]
    case _ => []
  }

  /** The planning result; the plan's id and creation stamp are left out. */
  datatype PlanningResult = PlanningResult(
    plan: Plan,
    stepCount: nat,
    estimatedDuration: int,
    riskAssessment: RiskLevel,
    requiresApproval: bool)

  /**
   * The plan for a thinking result: the intent's template on the extracted
   * target, the sum of the step durations as its estimate, the request's risk
   * as its assessment, and approval required exactly for high or critical
   * risk.
   */
  function PlanningPhase(t: Intent.ThinkingResult): (p: PlanningResult)
    ensures p.plan.steps == GenerateSteps(t.intent, t.target)
    ensures p.plan.target == t.target
    ensures p.stepCount == |p.plan.steps|
    ensures p.estimatedDuration == p.plan.estimatedTotalTime == TotalDuration(p.plan.steps)
    ensures t.intent == Reconnaissance ==> p.estimatedDuration == 180
    ensures t.intent == VulnerabilityScan ==> p.estimatedDuration == 180
    ensures t.intent == NetworkAnalysis ==> p.estimatedDuration == 30
    ensures p.plan.steps == [] ==> p.estimatedDuration == 0
    ensures p.riskAssessment == p.plan.riskAssessment == t.risk
    ensures p.requiresApproval <==> t.risk == High || t.risk == Critical
    ensures p.plan.title == OperationTitle(t.intent) + " Operation on " + t.target
  {
    var steps := GenerateSteps(t.intent, t.target);
    assert |steps| == 2 ==> steps[1..][1..] == [] && TotalDuration(steps[1..]) == steps[1].estimatedDuration;
    assert |steps| == 1 ==> steps[1..] == [];
    var plan := Plan(
      OperationTitle(t.intent) + " Operation on " + t.target,
      "Automated " + OperationName(t.intent) + " workflow targeting " + t.target,
      t.target, steps, TotalDuration(steps), t.risk);
    PlanningResult(plan, |steps|, plan.estimatedTotalTime, t.risk, t.risk in {High, Critical})
  }

  /**
   * Plans built from requests need approval exactly when the request carries
   * a high-risk word: the thinking phase never rates a request critical.
   */
  lemma ApprovalFromRequest(request: string, oracle: Intent.OracleReply)
    ensures PlanningPhase(Intent.ThinkingPhase(request, oracle)).requiresApproval
        <==> Keywords.AnyIn(Text.Lower(request), Intent.HighRiskWords)
  {
  }

  /** Durations add up over concatenated step lists. */
  lemma {:induction false} TotalDurationAppend(a: seq<Step>, b: seq<Step>)
    ensures TotalDuration(a + b) == TotalDuration(a) + TotalDuration(b)
  {
    if a == [] {
      assert a + b == b;
    } else {
      assert (a + b)[1..] == a[1..] + b;
      TotalDurationAppend(a[1..], b);
    }
  }

  /**
   * `SecurityToolManager.run_nmap_scan`'s scan-type map: the shell command an
   * nmap scan of each type runs; an unknown type runs the basic scan.
   */
  function NmapCommand(scanType: string, target: string): string {
    if scanType == "syn" then "nmap -sS " + target
    else if scanType == "service" then "nmap -sV -sC " + target
    else "nmap " + target
  }

  /**
   * The reconnaissance steps are run through the nmap tool with their
   * `target` and `scan_type` parameters, and the command the tool builds from
   * those is exactly the command text the step advertises.
   */
  lemma ReconStepsRunTheirCommand(target: string)
    ensures forall s :: s in GenerateSteps(Reconnaissance, target) ==>
      "scan_type" in s.parameters
      && NmapCommand(s.parameters["scan_type"], s.parameters["target"]) == s.command
  {
  }
}

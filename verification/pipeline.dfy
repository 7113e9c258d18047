/**
 * `AdvancedWorkflowEngine.process_natural_language_request`: the thinking →
 * planning → execution pipeline and the engine state it walks through.
 *
 * Everything the pipeline consults from outside is an input: the language
 * model's reply, what each step's tool call gives back, and whether an
 * exception escapes one of the phases (a context that cannot be serialised
 * to JSON when the thinking prompt is built is the concrete case in the
 * source).
 */
module Pipeline {
  import opened Wrappers
  import opened Workflow
  import Text
  import Keywords
  import Intent
  import Planner
  import Executor

  /** `WorkflowState`. */
  datatype State = Idle | Thinking | Planning | Executing | Completed | Error

  function StateName(s: State): string {
    match s
    case Idle => "idle"
    case Thinking => "thinking"
    case Planning => "planning"
    case Executing => "executing"
    case Completed => "completed"
    case Error => "error"
  }

  /** The phase an exception escapes from. */
  datatype Phase = InThinking | InPlanning | InExecution

  datatype Fault = NoFault | FaultIn(phase: Phase, message: string)

  /** The engine's mutable part: its state, current plan and log of step results. */
  datatype Engine = Engine(state: State, currentWorkflow: Option<Plan>, executionLog: seq<StepResult>)

  const InitialEngine := Engine(Idle, None, [])

  /** The answer: status "success" with the three phase results, or status "error". */
  datatype Response =
    | Success(thinking: Intent.ThinkingResult, planning: Planner.PlanningResult, execution: Executor.Summary)
    | Failure(error: string, state: State)

  function Status(r: Response): string {
    if r.Success? then "success" else "error"
  }

  /**
   * The transitions the engine makes: a request starts thinking from any
   * state, the phases follow each other, and any phase may fail into ERROR.
   */
  predicate Advances(a: State, b: State) {
    match b
    case Thinking => true
    case Planning => a == Thinking
    case Executing => a == Planning
    case Completed => a == Executing
    case Error => a in {Thinking, Planning, Executing}
    case Idle => false
  }

  /** Each state of `trace` is a transition from the one before, starting at `from`. */
  predicate ValidTrace(from: State, trace: seq<State>) {
    && (|trace| > 0 ==> Advances(from, trace[0]))
    && forall i :: 0 < i < |trace| ==> Advances(trace[i - 1], trace[i])
  }

  /** The states entered up to and including the failing phase. */
  function StatesThrough(p: Phase): seq<State> {
    match p
    case InThinking => [Thinking]
    case InPlanning => [Thinking, Planning]
    case InExecution => [Thinking, Planning, Executing]
  }

  /** The response, the engine afterwards, and the states it passed through. */
  datatype Outcome = Outcome(response: Response, engine: Engine, trace: seq<State>)

  /**
   * One request. Without a fault it passes THINKING, PLANNING, EXECUTING and
   * ends COMPLETED with status "success", the plan as the current workflow
   * and the step results appended to the log; a fault anywhere ends in ERROR
   * with status "error", the exception's message and state "error". The
   * language model's reply never causes a failure.
   */
  function ProcessRequest(e: Engine, request: string, oracle: Intent.OracleReply,
                          tools: nat -> Executor.StepRun, fault: Fault): (o: Outcome)
    ensures o.trace != [] && o.engine.state == o.trace[|o.trace| - 1]
    ensures ValidTrace(e.state, o.trace)
    ensures o.response.Success? <==> fault.NoFault?
    ensures Status(o.response) == "success" <==> o.engine.state == Completed
    ensures fault.NoFault? ==>
      && o.trace == [Thinking, Planning, Executing, Completed]
      && o.response.thinking == Intent.ThinkingPhase(request, oracle)
      && o.response.planning == Planner.PlanningPhase(o.response.thinking)
      && o.response.execution == Executor.ExecutionPhase(o.response.planning.plan, tools)
      && o.engine.currentWorkflow == Some(o.response.planning.plan)
      && o.engine.executionLog == e.executionLog + o.response.execution.results
    ensures fault.FaultIn? ==>
      && o.trace == StatesThrough(fault.phase) + [Error]
      && o.response == Failure(fault.message, Error)
      && o.engine.executionLog == e.executionLog
    ensures fault.FaultIn? && fault.phase != InExecution ==> o.engine.currentWorkflow == e.currentWorkflow
    ensures fault.FaultIn? && fault.phase == InExecution ==>
      o.engine.currentWorkflow == Some(Planner.PlanningPhase(Intent.ThinkingPhase(request, oracle)).plan)
  {
    var t := Intent.ThinkingPhase(request, oracle);
    var p := Planner.PlanningPhase(t);
    match fault
    case FaultIn(phase, m) =>
      FailedTraceValid(e.state, phase);
      var workflow := if phase == InExecution then Some(p.plan) else e.currentWorkflow;
      Outcome(Failure(m, Error), e.(state := Error, currentWorkflow := workflow),
              StatesThrough(phase) + [Error])
    case NoFault =>
      CompletedTraceValid(e.state);
      var x := Executor.ExecutionPhase(p.plan, tools);
      Outcome(Success(t, p, x), Engine(Completed, Some(p.plan), e.executionLog + x.results),
              [Thinking, Planning, Executing, Completed])
  }

  /** A failing request's states are transitions from whatever state the engine was in. */
  lemma FailedTraceValid(from: State, p: Phase)
    ensures ValidTrace(from, StatesThrough(p) + [Error])
  {
    var trace := StatesThrough(p) + [Error];
    forall i | 0 < i < |trace| ensures Advances(trace[i - 1], trace[i]) {
      assert trace[i - 1] in {Thinking, Planning, Executing};
      assert i < |trace| - 1 ==> trace[i] == StatesThrough(p)[i];
    }
  }

  /** So are a successful request's. */
  lemma CompletedTraceValid(from: State)
    ensures ValidTrace(from, [Thinking, Planning, Executing, Completed])
  {
    var trace := [Thinking, Planning, Executing, Completed];
    forall i | 0 < i < |trace| ensures Advances(trace[i - 1], trace[i]) {
      assert i == 1 || i == 2 || i == 3;
    }
  }

  /** `is_ready`: the command engine is always ready; the tool manager's readiness is an input. */
  function IsReady(e: Engine, toolsReady: bool): (r: bool)
    ensures r ==> e.state != Error
  {
    toolsReady && e.state != Error
  }

  /**
   * A failed request leaves the engine unready; a successful one leaves it as
   * ready as the tools are, and a later request can always start again.
   */
  lemma ReadinessAfterRequest(e: Engine, request: string, oracle: Intent.OracleReply,
                              tools: nat -> Executor.StepRun, fault: Fault, toolsReady: bool)
    ensures var o := ProcessRequest(e, request, oracle, tools, fault);
      && (fault.FaultIn? ==> !IsReady(o.engine, toolsReady))
      && (fault.NoFault? ==> IsReady(o.engine, toolsReady) == toolsReady)
  {
  }

  /**
   * The model's reply is only ever the thinking result's analysis: two
   * replies give the same plan, the same execution and the same status.
   */
  lemma OracleDoesNotSteer(e: Engine, request: string, a: Intent.OracleReply, b: Intent.OracleReply,
                           tools: nat -> Executor.StepRun, fault: Fault)
    ensures var oa := ProcessRequest(e, request, a, tools, fault);
      var ob := ProcessRequest(e, request, b, tools, fault);
      && oa.engine == ob.engine && oa.trace == ob.trace
      && Status(oa.response) == Status(ob.response)
      && (fault.NoFault? ==>
            oa.response.planning == ob.response.planning
            && oa.response.execution == ob.response.execution)
  {
    Intent.OracleOnlyChangesAnalysis(request, a, b);
  }

  /** Generated plans have no critical step, so every planned step is executed. */
  lemma GeneratedPlansRunToEnd(e: Engine, request: string, oracle: Intent.OracleReply,
                               tools: nat -> Executor.StepRun)
    ensures var o := ProcessRequest(e, request, oracle, tools, NoFault);
      |o.response.execution.results| == o.response.execution.totalSteps
  {
    var t := Intent.ThinkingPhase(request, oracle);
    Executor.NoCriticalRunsAll(Planner.GenerateSteps(t.intent, t.target), tools);
  }

  /**
   * A network-analysis request never succeeds: its one step calls a method
   * the network monitor does not have.
   */
  lemma NetworkRequestsFail(e: Engine, request: string, oracle: Intent.OracleReply,
                            tools: nat -> Executor.StepRun)
    requires Intent.ExtractIntent(request) == NetworkAnalysis
    ensures var o := ProcessRequest(e, request, oracle, tools, NoFault);
      && o.response.execution.totalSteps == 1
      && o.response.execution.successfulSteps == 0
      && o.response.execution.failedSteps == 1
      && o.response.execution.results[0].errorMessage == Some(Executor.NetworkMonitorMissing)
  {
    var t := Intent.ThinkingPhase(request, oracle);
    var steps := Planner.GenerateSteps(t.intent, t.target);
    Executor.NetworkStepsFail(steps[0], tools(0).call);
    Executor.NoCriticalRunsAll(steps, tools);
  }

  /** A request that needs approval is exactly one carrying a high-risk word. */
  lemma ApprovalNeedsHighRiskWord(e: Engine, request: string, oracle: Intent.OracleReply,
                                  tools: nat -> Executor.StepRun)
    ensures ProcessRequest(e, request, oracle, tools, NoFault).response.planning.requiresApproval
        <==> Keywords.AnyIn(Text.Lower(request), Intent.HighRiskWords)
  {
    Planner.ApprovalFromRequest(request, oracle);
  }
}

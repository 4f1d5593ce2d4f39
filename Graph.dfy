/**
 * The workflow graph (graph.py). The graph runtime is replaced by an
 * explicit driver loop that runs the current node, merges the fields it
 * returns into the state, and follows the graph's edges.
 */
module Graph {
  import opened Wrappers
  import opened Models
  import opened State
  import opened Tools
  import opened Nodes

  /** The graph's nodes; `Start` and `End` are its entry and exit. */
  datatype Node = Start | Planner | Decision | ParallelChecks | Writer | End

  /** `route_from_react`: only the action `run_parallel_checks` leads to the checks; anything else, including none, to the writer. */
  function RouteFromReact(s: AuditState): (n: Node)
    ensures n == ParallelChecks <==> s.nextAction == Some(RunParallelChecks)
    ensures n == Writer <==> s.nextAction != Some(RunParallelChecks)
  {
    if s.nextAction == Some(RunParallelChecks) then ParallelChecks else Writer
  }

  /** The edges of `build_graph`. */
  function Successor(n: Node, s: AuditState): (m: Node)
    ensures n == Start ==> m == Planner
    ensures n == Planner || n == ParallelChecks ==> m == Decision
    ensures n == Decision ==> m == RouteFromReact(s)
    ensures n == Writer || n == End ==> m == End
    ensures m != Start
  {
    match n
    case Start => Planner
    case Planner => Decision
    case Decision => RouteFromReact(s)
    case ParallelChecks => Decision
    case Writer => End
    case End => End
  }

  /**
   * The LLM's answers: the plan, the decision at each value of the loop
   * counter, and the report; `None` is a call that raised.
   */
  datatype Oracle = Oracle(plan: Option<AuditPlan>, decide: int -> Option<ReactDecision>, report: Option<AuditReport>)

  /** Every answer the LLM gives has passed the schema's validation. */
  ghost predicate WellFormedOracle(o: Oracle) {
    forall k :: o.decide(k).Some? ==> ValidDecision(o.decide(k).value)
  }

  /** What the two linters print for the audited path, and how their output parses. */
  datatype LinterRuns = LinterRuns(ruff: ProcessResult, ruffJson: Json<seq<RuffRow>>, radon: ProcessResult, radonJson: Json<seq<RadonFile>>)

  /**
   * `parallel_checks_node`: ruff (with the state's simulation flag) and
   * radon (with no options), their outputs appended in that order after the
   * earlier ones; only `tool_outputs` is written.
   */
  method ParallelChecksNode(s: AuditState, runs: LinterRuns, registry: TransientRegistry) returns (u: Update)
    modifies registry
    ensures u.ChecksUpdate?
    ensures u.toolOutputs == s.toolOutputs + [RuffOutcome(s.userRequest.targetPath, runs.ruff, runs.ruffJson),
                                              RadonOutcome(s.userRequest.targetPath, runs.radon, runs.radonJson)]
    ensures registry.failedKeys == if s.simulateRetry then old(registry.failedKeys) + {FailKey(s.userRequest.targetPath)}
                                   else old(registry.failedKeys)
  {
    var targetPath := s.userRequest.targetPath;
    ghost var attempts;
    var ruffResult;
    ruffResult, attempts := registry.RunRuffCheck(targetPath, ToolOptions(s.simulateRetry), runs.ruff, runs.ruffJson);
    var radonResult := RunRadonComplexity(targetPath, runs.radon, runs.radonJson);
    u := ChecksUpdate(s.toolOutputs + [ruffResult.out, radonResult]);
  }

  /** The nodes a completed run executes, in order. */
  const CompletedRun: seq<Node> := [Planner, Decision, ParallelChecks, Decision, Writer]

  /**
   * `run_audit`: builds the initial state and drives the graph from `Start`
   * to `End`. Whatever the LLM answers and whatever `max_loops` is, a run
   * visits the planner, makes a decision to check, runs one check round,
   * makes a decision to finish and writes the report: two decisions, so the
   * loop counter ends at 2.
   */
  method RunAudit(query: string, targetPath: string, oracle: Oracle, runs: LinterRuns, registry: TransientRegistry,
                  simulateRetry: bool := false, maxLoops: int := 3)
    returns (r: Result<AuditState, ValidationError>, ghost visited: seq<Node>)
    requires WellFormedOracle(oracle)
    modifies registry
    ensures r.Success? <==> |query| >= MinQueryLength
    ensures r.Failure? ==> visited == [] && registry.failedKeys == old(registry.failedKeys)
    ensures r.Success? ==> visited == CompletedRun
    ensures r.Success? ==>
      var s := r.value;
      var outs := [RuffOutcome(targetPath, runs.ruff, runs.ruffJson), RadonOutcome(targetPath, runs.radon, runs.radonJson)];
      && s.userRequest == UserRequest(query, targetPath)
      && s.maxLoops == maxLoops && s.simulateRetry == simulateRetry
      && s.plan == Some(oracle.plan.GetOr(FallbackPlan(targetPath)))
      && |s.reactHistory| == 2
      && s.reactHistory[0].action == RunParallelChecks && !s.reactHistory[0].done
      && s.reactHistory[1].action == Finish
      && (forall i :: 0 <= i < |s.reactHistory| ==> ValidDecision(s.reactHistory[i]))
      && s.toolOutputs == outs
      && s.nextAction == Some(Finish)
      && s.loopCount == 2
      && s.report == Some(if oracle.report.Some? then oracle.report.value else FallbackReport(outs))
    ensures r.Success? ==>
      registry.failedKeys == if simulateRetry then old(registry.failedKeys) + {FailKey(targetPath)} else old(registry.failedKeys)
  {
    visited := [];
    var init := BuildInitialState(query, targetPath, simulateRetry, maxLoops);
    if init.Failure? {
      return Failure(init.error), visited;
    }
    var state := init.value;
    ghost var outs := [RuffOutcome(targetPath, runs.ruff, runs.ruffJson), RadonOutcome(targetPath, runs.radon, runs.radonJson)];
    var node := Successor(Start, state);
    while node != End
      invariant |visited| <= 5 && visited == CompletedRun[..|visited|]
      invariant node == if |visited| < 5 then CompletedRun[|visited|] else End
      invariant state.userRequest == UserRequest(query, targetPath)
      invariant state.maxLoops == maxLoops && state.simulateRetry == simulateRetry
      invariant |visited| == 0 ==> state.plan == None
      invariant |visited| >= 1 ==> state.plan == Some(oracle.plan.GetOr(FallbackPlan(targetPath)))
      invariant |visited| <= 1 ==> state.reactHistory == [] && state.loopCount == 0
      invariant 2 <= |visited| <= 3 ==> |state.reactHistory| == 1 && state.loopCount == 1 && state.nextAction == Some(RunParallelChecks)
      invariant |visited| >= 4 ==> |state.reactHistory| == 2 && state.loopCount == 2 && state.nextAction == Some(Finish)
      invariant |visited| >= 2 ==> state.reactHistory[0].action == RunParallelChecks && !state.reactHistory[0].done
      invariant |visited| >= 4 ==> state.reactHistory[1].action == Finish
      invariant forall i :: 0 <= i < |state.reactHistory| ==> ValidDecision(state.reactHistory[i])
      invariant |visited| <= 2 ==> state.toolOutputs == [] && registry.failedKeys == old(registry.failedKeys)
      invariant |visited| >= 3 ==> state.toolOutputs == outs
      invariant |visited| >= 3 ==> registry.failedKeys == if simulateRetry then old(registry.failedKeys) + {FailKey(targetPath)}
                                                          else old(registry.failedKeys)
      invariant |visited| <= 4 ==> state.report == None
      invariant |visited| == 5 ==> state.report == Some(if oracle.report.Some? then oracle.report.value else FallbackReport(outs))
      decreases 5 - |visited|
    {
      var update: Update;
      if node == Planner {
        update := PlannerNode(state, oracle.plan);
      } else if node == Decision {
        var answer := oracle.decide(state.loopCount);
        RecordedDecisionValid(state, answer);
        if state.toolOutputs == [] {
          NoOutputsForcesChecks(state, answer);
        } else {
          OutputsForceFinish(state, answer);
        }
        update := ReactDecisionNode(state, answer);
      } else if node == ParallelChecks {
        update := ParallelChecksNode(state, runs, registry);
      } else {
        update := WriterNode(state, oracle.report);
      }
      state := Merge(state, update);
      visited := visited + [node];
      node := Successor(node, state);
    }
    r := Success(state);
  }
}

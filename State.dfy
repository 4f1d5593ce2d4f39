/**
 * The run state (state.py) and the merge of a node's returned fields into
 * it, which the graph runtime performs after every node.
 */
module State {
  import opened Wrappers
  import opened Models

  /** `AuditState`. */
  datatype AuditState = AuditState(
    userRequest: UserRequest,
    plan: Option<AuditPlan>,
    reactHistory: seq<ReactDecision>,
    toolOutputs: seq<ToolOutput>,
    report: Option<AuditReport>,
    nextAction: Option<ReactAction>,
    loopCount: int,
    maxLoops: int,
    simulateRetry: bool)

  /** The fields a node returns; each node returns exactly one shape. */
  datatype Update =
    | PlanUpdate(plan: AuditPlan)
    | DecisionUpdate(reactHistory: seq<ReactDecision>, nextAction: Option<ReactAction>, loopCount: int)
    | ChecksUpdate(toolOutputs: seq<ToolOutput>)
    | ReportUpdate(report: AuditReport)

  /** Overwrites the fields an update carries and keeps every other field. */
  function Merge(s: AuditState, u: Update): (s': AuditState)
    ensures s'.userRequest == s.userRequest && s'.maxLoops == s.maxLoops && s'.simulateRetry == s.simulateRetry
    ensures s'.plan == (if u.PlanUpdate? then Some(u.plan) else s.plan)
    ensures s'.toolOutputs == (if u.ChecksUpdate? then u.toolOutputs else s.toolOutputs)
    ensures s'.report == (if u.ReportUpdate? then Some(u.report) else s.report)
    ensures u.DecisionUpdate? ==> s'.reactHistory == u.reactHistory && s'.nextAction == u.nextAction && s'.loopCount == u.loopCount
    ensures !u.DecisionUpdate? ==> s'.reactHistory == s.reactHistory && s'.nextAction == s.nextAction && s'.loopCount == s.loopCount
  {
    match u
    case PlanUpdate(p) => s.(plan := Some(p))
    case DecisionUpdate(h, a, n) => s.(reactHistory := h, nextAction := a, loopCount := n)
    case ChecksUpdate(outs) => s.(toolOutputs := outs)
    case ReportUpdate(r) => s.(report := Some(r))
  }

  /** `build_initial_state`: fails exactly when the `UserRequest` it builds is invalid. */
  function BuildInitialState(query: string, targetPath: string, simulateRetry: bool := false, maxLoops: int := 3): (r: Result<AuditState, ValidationError>)
    ensures r.Success? <==> |query| >= MinQueryLength
    ensures r.Success? ==>
      && r.value.userRequest == UserRequest(query, targetPath)
      && r.value.plan == None && r.value.report == None && r.value.nextAction == None
      && r.value.reactHistory == [] && r.value.toolOutputs == []
      && r.value.loopCount == 0
      && r.value.maxLoops == maxLoops && r.value.simulateRetry == simulateRetry
    ensures r.Failure? ==> r == Failure(StringTooShort("query", MinQueryLength))
  {
    match NewUserRequest(query, targetPath)
    case Failure(e) => Failure(e)
    case Success(req) => Success(AuditState(req, None, [], [], None, None, 0, maxLoops, simulateRetry))
  }

  /** Omitted arguments give a loop limit of 3 and no simulated failure. */
  lemma InitialStateDefaults(query: string, targetPath: string)
    requires |query| >= MinQueryLength
    ensures BuildInitialState(query, targetPath).Success?
    ensures BuildInitialState(query, targetPath).value.maxLoops == 3
    ensures !BuildInitialState(query, targetPath).value.simulateRetry
  {
  }
}

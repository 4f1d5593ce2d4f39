/**
 * The three LLM-driven nodes (nodes.py). Each LLM call is an input: `Some`
 * of a schema-valid value, or `None` when the call raised; every call site
 * then takes its deterministic fallback. Each node returns only the fields
 * it writes, as an `Update`.
 */
module Nodes {
  import opened Wrappers
  import opened Models
  import opened State
  import Seqs

  // ---------------------------------------------------------------------
  // Planner
  // ---------------------------------------------------------------------

  const ScopePrefix := "Аудит цели: "

  /** The plan used when the planner's LLM call raises. */
  function FallbackPlan(targetPath: string): (p: AuditPlan)
    ensures p == NewAuditPlan(p.scope)
    ensures ScopePrefix <= p.scope && p.scope[|ScopePrefix|..] == targetPath
  {
    AuditPlan([Ruff, Radon], ScopePrefix + targetPath, Balanced)
  }

  /** `planner_node`: writes only `plan`, the LLM's or else the fallback. */
  function PlannerNode(s: AuditState, answer: Option<AuditPlan>): (u: Update)
    ensures u.PlanUpdate?
    ensures answer.Some? ==> u.plan == answer.value
    ensures answer.None? ==> u.plan == FallbackPlan(s.userRequest.targetPath)
  {
    PlanUpdate(answer.GetOr(FallbackPlan(s.userRequest.targetPath)))
  }

  // ---------------------------------------------------------------------
  // ReAct decision
  // ---------------------------------------------------------------------

  const GuardReason := "Reached max loop count guard."
  const FallbackReason := "Резервная детерминированная политика."

  /** Both reasons the node writes itself meet the schema's minimum length. */
  lemma BuiltInReasonsValid()
    ensures ValidDecision(ReactDecision(Finish, GuardReason, true))
    ensures ValidDecision(ReactDecision(RunParallelChecks, FallbackReason, false))
    ensures ValidDecision(ReactDecision(Finish, FallbackReason, true))
  {
  }

  /** The decision before the overrides: the guard's, else the LLM's, else the fallback. */
  function ProposedDecision(s: AuditState, answer: Option<ReactDecision>): ReactDecision
  {
    if s.loopCount >= s.maxLoops then
      ReactDecision(Finish, GuardReason, true)
    else
      match answer
      case Some(d) => d
      case None => ReactDecision(if s.toolOutputs == [] then RunParallelChecks else Finish, FallbackReason, s.toolOutputs != [])
  }

  /** The overrides: no tool outputs forces a check round; with outputs, anything but `finish` becomes `finish`. */
  function Override(hasOutputs: bool, d: ReactDecision): ReactDecision
  {
    if !hasOutputs then ReactDecision(RunParallelChecks, d.reason, false)
    else if d.action != Finish then ReactDecision(Finish, d.reason, true)
    else d
  }

  /** The decision the node records. */
  function RecordedDecision(s: AuditState, answer: Option<ReactDecision>): ReactDecision
  {
    Override(s.toolOutputs != [], ProposedDecision(s, answer))
  }

  /** `react_decision_node`: appends one decision, routes by its action and counts the step. */
  function ReactDecisionNode(s: AuditState, answer: Option<ReactDecision>): (u: Update)
    ensures u.DecisionUpdate?
    ensures |u.reactHistory| == |s.reactHistory| + 1 && u.reactHistory[..|s.reactHistory|] == s.reactHistory
    ensures u.reactHistory[|s.reactHistory|] == RecordedDecision(s, answer)
    ensures u.nextAction == Some(u.reactHistory[|s.reactHistory|].action)
    ensures u.loopCount == s.loopCount + 1
  {
    var d := RecordedDecision(s, answer);
    DecisionUpdate(s.reactHistory + [d], Some(d.action), s.loopCount + 1)
  }

  /** Once the guard fires the LLM is not consulted: the answer makes no difference, and the proposal is the guard's. */
  lemma GuardIgnoresOracle(s: AuditState, a1: Option<ReactDecision>, a2: Option<ReactDecision>)
    requires s.loopCount >= s.maxLoops
    ensures ProposedDecision(s, a1) == ReactDecision(Finish, GuardReason, true)
    ensures ReactDecisionNode(s, a1) == ReactDecisionNode(s, a2)
  {
  }

  /** Below the guard a successful LLM answer is the proposal. */
  lemma OracleAnswerUsed(s: AuditState, d: ReactDecision)
    requires s.loopCount < s.maxLoops
    ensures ProposedDecision(s, Some(d)) == d
  {
  }

  /** Below the guard, once outputs exist, the LLM's `finish` is recorded exactly as given. */
  lemma OracleFinishHonoured(s: AuditState, d: ReactDecision)
    requires s.loopCount < s.maxLoops && s.toolOutputs != [] && d.action == Finish
    ensures RecordedDecision(s, Some(d)) == d
    ensures ReactDecisionNode(s, Some(d)).reactHistory == s.reactHistory + [d]
  {
    OracleAnswerUsed(s, d);
  }

  /** When the LLM call raises below the guard, the fallback checks exactly when nothing was checked yet. */
  lemma OracleFailureFallback(s: AuditState)
    requires s.loopCount < s.maxLoops
    ensures ProposedDecision(s, None).action == RunParallelChecks <==> s.toolOutputs == []
    ensures ProposedDecision(s, None).done <==> s.toolOutputs != []
    ensures ProposedDecision(s, None).reason == FallbackReason
  {
  }

  /** Without tool outputs the recorded decision runs the checks and keeps the proposal's reason, even when the guard fired. */
  lemma NoOutputsForcesChecks(s: AuditState, answer: Option<ReactDecision>)
    requires s.toolOutputs == []
    ensures RecordedDecision(s, answer) == ReactDecision(RunParallelChecks, ProposedDecision(s, answer).reason, false)
    ensures ReactDecisionNode(s, answer).nextAction == Some(RunParallelChecks)
  {
  }

  /** With tool outputs the recorded decision finishes: a proposed `finish` unchanged, anything else coerced with its reason kept. */
  lemma OutputsForceFinish(s: AuditState, answer: Option<ReactDecision>)
    requires s.toolOutputs != []
    ensures RecordedDecision(s, answer).action == Finish
    ensures ProposedDecision(s, answer).action == Finish ==> RecordedDecision(s, answer) == ProposedDecision(s, answer)
    ensures ProposedDecision(s, answer).action != Finish ==>
      RecordedDecision(s, answer) == ReactDecision(Finish, ProposedDecision(s, answer).reason, true)
    ensures ReactDecisionNode(s, answer).nextAction == Some(Finish)
  {
  }

  /** Given a schema-valid LLM answer, the node never records an invalid decision. */
  lemma RecordedDecisionValid(s: AuditState, answer: Option<ReactDecision>)
    requires answer.Some? ==> ValidDecision(answer.value)
    ensures ValidDecision(RecordedDecision(s, answer))
  {
    BuiltInReasonsValid();
  }

  // ---------------------------------------------------------------------
  // Writer
  // ---------------------------------------------------------------------

  const FallbackSummary := "Сформирован резервный отчет без ответа LLM."
  const FallbackNextSteps: seq<string> := [
    "Сначала исправить находки с высокой критичностью.",
    "После изменений повторно запустить аудит.",
    "Добавить тесты для рискованных модулей."
  ]
  /** How many findings the fallback report names as key risks. */
  const KeyRiskCount: nat := 3

  function FindingLists(outs: seq<ToolOutput>): seq<seq<Finding>>
  {
    seq(|outs|, i requires 0 <= i < |outs| => outs[i].findings)
  }

  /** Every tool output's findings, in output order and then finding order. */
  function AllFindings(outs: seq<ToolOutput>): seq<Finding>
  {
    Seqs.Flatten(FindingLists(outs))
  }

  /** The findings of later outputs follow those of earlier ones. */
  lemma AllFindingsConcat(a: seq<ToolOutput>, b: seq<ToolOutput>)
    ensures AllFindings(a + b) == AllFindings(a) + AllFindings(b)
  {
    assert FindingLists(a + b) == FindingLists(a) + FindingLists(b);
    Seqs.FlattenAppend(FindingLists(a), FindingLists(b));
  }

  /** A single output contributes exactly its own findings. */
  lemma AllFindingsOne(o: ToolOutput)
    ensures AllFindings([o]) == o.findings
  {
    assert FindingLists([o]) == [o.findings];
    Seqs.FlattenSingle(o.findings);
  }

  /** `[f.message for f in findings]`. */
  function Messages(findings: seq<Finding>): seq<string>
  {
    seq(|findings|, i requires 0 <= i < |findings| => findings[i].message)
  }

  function Min(a: nat, b: nat): nat {
    if a <= b then a else b
  }

  /** The report used when the writer's LLM call raises. */
  function FallbackReport(outs: seq<ToolOutput>): AuditReport
  {
    var findings := AllFindings(outs);
    AuditReport(FallbackSummary, Messages(findings[..Min(KeyRiskCount, |findings|)]), findings, FallbackNextSteps)
  }

  /** The fallback's key risks are the messages of its first (at most three) findings, and it lists three next steps. */
  lemma FallbackReportShape(outs: seq<ToolOutput>)
    ensures var r := FallbackReport(outs);
      && r.findings == AllFindings(outs)
      && |r.keyRisks| == Min(KeyRiskCount, |r.findings|)
      && (forall i :: 0 <= i < |r.keyRisks| ==> r.keyRisks[i] == r.findings[i].message)
      && r.summary == FallbackSummary
      && r.nextSteps == FallbackNextSteps
  {
  }

  /** The `for`/`extend` loop of the writer's fallback. */
  method CollectFindings(outs: seq<ToolOutput>) returns (findings: seq<Finding>)
    ensures findings == AllFindings(outs)
  {
    findings := [];
    for i := 0 to |outs|
      invariant findings == AllFindings(outs[..i])
    {
      assert FindingLists(outs[..i + 1])[..i] == FindingLists(outs[..i]);
      findings := findings + outs[i].findings;
    }
    assert outs[..|outs|] == outs;
  }

  /** `writer_node`: writes only `report`, the LLM's or else the fallback. */
  method WriterNode(s: AuditState, answer: Option<AuditReport>) returns (u: Update)
    ensures u == ReportUpdate(if answer.Some? then answer.value else FallbackReport(s.toolOutputs))
  {
    match answer {
      case Some(report) =>
        u := ReportUpdate(report);
      case None =>
        var findings := CollectFindings(s.toolOutputs);
        var keyRisks := Messages(findings[..Min(KeyRiskCount, |findings|)]);
        u := ReportUpdate(AuditReport(FallbackSummary, keyRisks, findings, FallbackNextSteps));
    }
  }
}

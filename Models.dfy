/**
 * The record types of the auditor (models.py). Every `Literal[...]` field
 * becomes a datatype, so its "one of" constraint holds by typing; the
 * `min_length` constraints become validity predicates, and the pydantic
 * constructors that enforce them return a `Result`. Fields with a default
 * become optional parameters of a constructor function.
 */
module Models {
  import opened Wrappers

  /** `CheckName`: the two linters. */
  datatype CheckName = Ruff | Radon

  /** `Severity`. */
  datatype Severity = Low | Medium | High | Critical

  /** `ReactAction`. */
  datatype ReactAction = RunParallelChecks | Finish

  /** `AuditPlan.priority`. */
  datatype Priority = Speed | Balanced | Depth

  /** A pydantic validation failure: a string field shorter than its minimum. */
  datatype ValidationError = StringTooShort(field: string, minLength: nat)

  const MinQueryLength: nat := 5
  const MinReasonLength: nat := 5

  /** `UserRequest`; extra fields are impossible by construction. */
  datatype UserRequest = UserRequest(query: string, targetPath: string)

  predicate ValidUserRequest(r: UserRequest) {
    |r.query| >= MinQueryLength
  }

  /** `UserRequest(query=..., target_path=...)`: raises unless the query has at least 5 characters. */
  function NewUserRequest(query: string, targetPath: string): (r: Result<UserRequest, ValidationError>)
    ensures r.Success? <==> |query| >= MinQueryLength
    ensures r.Success? ==> ValidUserRequest(r.value) && r.value.query == query && r.value.targetPath == targetPath
    ensures r.Failure? ==> r.error == StringTooShort("query", MinQueryLength)
  {
    if |query| < MinQueryLength then Failure(StringTooShort("query", MinQueryLength))
    else Success(UserRequest(query, targetPath))
  }

  /** `AuditPlan`. */
  datatype AuditPlan = AuditPlan(checks: seq<CheckName>, scope: string, priority: Priority)

  const DefaultChecks: seq<CheckName> := [Ruff, Radon]

  /** `AuditPlan(...)` with the schema's defaults for `checks` and `priority`. */
  function NewAuditPlan(scope: string, checks: seq<CheckName> := DefaultChecks, priority: Priority := Balanced): AuditPlan
  {
    AuditPlan(checks, scope, priority)
  }

  /** A plan built from a scope alone runs both linters with balanced priority. */
  lemma AuditPlanDefaults(scope: string)
    ensures NewAuditPlan(scope).checks == [Ruff, Radon]
    ensures NewAuditPlan(scope).priority == Balanced
    ensures NewAuditPlan(scope).scope == scope
  {
  }

  /** `ReactDecision`. */
  datatype ReactDecision = ReactDecision(action: ReactAction, reason: string, done: bool)

  predicate ValidDecision(d: ReactDecision) {
    |d.reason| >= MinReasonLength
  }

  /** `Finding`. */
  datatype Finding = Finding(severity: Severity, file: string, message: string, suggestion: string)

  /** `ToolOutput`. */
  datatype ToolOutput = ToolOutput(toolName: CheckName, ok: bool, findings: seq<Finding>, rawOutput: string, error: Option<string>)

  /** `ToolOutput(...)` with the schema's defaults for the last three fields. */
  function NewToolOutput(toolName: CheckName, ok: bool, findings: seq<Finding> := [], rawOutput: string := "", error: Option<string> := None): ToolOutput
  {
    ToolOutput(toolName, ok, findings, rawOutput, error)
  }

  /** A tool output given only its tool and status has no findings, no raw output and no error. */
  lemma ToolOutputDefaults(toolName: CheckName, ok: bool)
    ensures NewToolOutput(toolName, ok) == ToolOutput(toolName, ok, [], "", None)
  {
  }

  /** `AuditReport`. */
  datatype AuditReport = AuditReport(summary: string, keyRisks: seq<string>, findings: seq<Finding>, nextSteps: seq<string>)

  /** `AuditReport(...)` with the schema's defaults for the three list fields. */
  function NewAuditReport(summary: string, keyRisks: seq<string> := [], findings: seq<Finding> := [], nextSteps: seq<string> := []): AuditReport
  {
    AuditReport(summary, keyRisks, findings, nextSteps)
  }

  /** A report given only its summary has empty lists. */
  lemma AuditReportDefaults(summary: string)
    ensures NewAuditReport(summary) == AuditReport(summary, [], [], [])
  {
  }
}

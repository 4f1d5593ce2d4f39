# Code auditor: decision loop and linter adapters, in Dafny

This project models the deterministic core of a small code-audit agent. The agent plans an audit, decides whether to run its two linters, runs ruff and radon, and writes a report. Each step can consult a language model. The language model and the linter processes are inputs of the model. What remains is modelled and proved:

- **Decision state machine** (`Nodes`, `Graph`, `State`). The ReAct decision node has a loop-count guard, an LLM fallback and two overrides. The graph's routing and topology are modelled. The graph runtime becomes the method `Graph.RunAudit`: a `while` loop that runs the current node, merges the fields it returns into the state (`State.Merge`) and follows the edges (`Graph.Successor`).
- **Tool adapters** (`Tools`). The two severity tables are modelled. So is the sorting of exit codes and parse outcomes into a `ToolOutput`, and the building of findings with append loops. The process-wide set of keys whose simulated transient failure already happened is the class `Tools.TransientRegistry`. Its retry decorator is an attempt loop bounded by 3, which retries only `TransientToolError`.
- **Fallback builders and schemas** (`Nodes`, `Models`). This covers the planner and writer fallbacks, and the record types with their validity predicates and defaults.

Files: `Wrappers.dfy` (Option, Result), `Seqs.dfy` (concatenation of a sequence of sequences), `Models.dfy`, `State.dfy`, `Tools.dfy`, `Nodes.dfy`, `Graph.dfy`.

The main theorem is the contract of `Graph.RunAudit`. A run with a valid query always visits planner, decision, checks, decision and writer, in that order. It makes exactly two decisions, first `run_parallel_checks` and then `finish`, and one round of checks. It ends with `loop_count = 2` and two tool outputs, ruff's then radon's. This holds for every LLM answer and every `max_loops`. The guard compares the counter before incrementing it, and "no tool outputs" forces a check round even after the guard fired. So the loop counter ends above `max_loops` when `max_loops` is 0 or 1, and `max_loops` is not a ceiling on the number of decisions. The model follows the code here.

The retry contract (`Tools.TransientRegistry.RunRuffCheck`) shows that the ruff adapter never re-raises a transient error, for the inputs modelled here. The only transient error in the code is the simulated one. It fires at most once per path, so the retry always succeeds on its second attempt. Errors from inputs the model leaves out (a missing executable, JSON of the wrong shape) are not retried and do propagate. The model also shows that the plan's `checks` list never selects which linters run: the checks node always runs both.

## Model

| member | source | states |
|---|---|---|
| `Models.NewUserRequest` | src/code_auditor/models.py:13-17 | building a request succeeds exactly when the query has at least 5 characters, and keeps both fields |
| `Models.AuditPlanDefaults` | src/code_auditor/models.py:20-31 | a plan given only a scope checks `[ruff, radon]` with `balanced` priority |
| `Models.ToolOutputDefaults` | src/code_auditor/models.py:59-66 | a tool output given only tool and status has no findings, empty raw output and no error |
| `Models.AuditReportDefaults` | src/code_auditor/models.py:69-75 | a report given only a summary has empty key risks, findings and next steps |
| `State.BuildInitialState` | src/code_auditor/state.py:20-37 | fails exactly when the query is shorter than 5 characters; otherwise counter 0, no plan, report or next action, empty history and outputs, and the limit and flag as given |
| `State.InitialStateDefaults` | src/code_auditor/state.py:20-26 | omitted arguments mean `max_loops = 3` and no simulated failure |
| `State.Merge` | src/code_auditor/state.py:8-17 | merging a node's result overwrites exactly the fields it returned; request, limit and flag never change |
| `Tools.SeverityFromRuff` | src/code_auditor/tools.py:19-24 | high exactly for codes starting with `F`, `B` or `E9`; medium exactly for other `E` codes and `W` codes; low for every other code |
| `Tools.UnknownRuleIsLow` | src/code_auditor/tools.py:19-24 | the default rule `UNKNOWN` and the empty code are low |
| `Tools.SeverityFromRadon` | src/code_auditor/tools.py:27-36 | low exactly for ranks A and B, high exactly for D, critical exactly for E and F, medium for C and every unknown rank |
| `Tools.RadonSeverityMonotone` | src/code_auditor/tools.py:27-36 | over ranks A to F, a worse rank never gets a milder severity |
| `Tools.LoadJson` | src/code_auditor/tools.py:75 | blank output (Python whitespace only) parses as the empty value without calling the parser; any other output gets the parser's outcome |
| `Tools.ExitError` | src/code_auditor/tools.py:65-72 | the error of a bad exit is never empty; it is the standard error when that is non-empty, and otherwise `<tool> завершился с кодом <code>` |
| `Tools.IntToStringRoundTrip` | src/code_auditor/tools.py:71 | the exit code's text in that message denotes the code itself, sign included |
| `Tools.NatToStringRoundTrip` | src/code_auditor/tools.py:71 | the decimal digits of a non-negative code read back as that code |
| `Tools.RuffFindingFromRow` | src/code_auditor/tools.py:85-98 | a row's finding message is `rule: message`; its severity is the rule's, with a missing rule graded low; a present file name is kept and a missing one becomes the audited path; a missing code, message or file name gives the same finding as `UNKNOWN`, `Сообщение отсутствует` or the audited path in its place |
| `Tools.RuffOutcome` | src/code_auditor/tools.py:62-106 | ok exactly when the exit code is 0 or 1 and the output is blank or parses; ok exactly when there is no error; failures have no findings, a non-empty error (the exit error, or the fixed parse error) and keep stdout; successes have one finding per row |
| `Tools.RuffBlankOutput` | src/code_auditor/tools.py:74-75 | a good exit with blank output is a success with zero findings, whatever the parser would say |
| `Tools.CollectRuffFindings` | src/code_auditor/tools.py:85-98 | the append loop yields one finding per row, in row order |
| `Tools.RuffFromRun` | src/code_auditor/tools.py:62-106 | the method computes exactly `RuffOutcome` |
| `Tools.RadonMissingRank` | src/code_auditor/tools.py:136-141 | a block without a rank gives exactly the finding of the same block with rank C: medium, named as rank C, in its file |
| `Tools.RadonFindingsConcat` | src/code_auditor/tools.py:134-147 | the findings of earlier files come before those of later files |
| `Tools.RadonFindingsOneFile` | src/code_auditor/tools.py:134-147 | within one file there is one finding per block, in block order |
| `Tools.RadonOutcome` | src/code_auditor/tools.py:109-155 | ok exactly when the exit code is 0 and the output is blank or parses; ok exactly when there is no error; failures have no findings, a non-empty error and keep stdout; successes have file-then-block findings and `tool_name = radon` |
| `Tools.RadonExitOneFails` | src/code_auditor/tools.py:114-121 | exit code 1 is a failure with empty findings and an error |
| `Tools.RunRadonComplexity` | src/code_auditor/tools.py:109-155 | the nested append loops compute exactly `RadonOutcome` |
| `Tools.FailKey` | src/code_auditor/tools.py:57 | the key is `ruff::` followed by the path, which can be read back from it |
| `Tools.FailKeyInjective` | src/code_auditor/tools.py:57-59 | distinct paths have distinct keys |
| `Tools.TransientRegistry.constructor` | src/code_auditor/tools.py:12 | the set starts empty |
| `Tools.TransientRegistry.RunRuffCheckOnce` | src/code_auditor/tools.py:54-60 | with the flag set and the key new, the key is inserted and a transient error raised; otherwise ruff runs; with the flag set the key is always in the set afterwards; without it the set is untouched |
| `Tools.TransientRegistry.RunRuffCheck` | src/code_auditor/tools.py:48-60 | at most 3 attempts; every retried attempt raised a transient error; the last attempt is the result; the call always returns ruff's output, after 2 attempts exactly when the simulation fires |
| `Nodes.FallbackPlan` | src/code_auditor/nodes.py:40-46 | the fallback plan has the schema defaults `[ruff, radon]` and `balanced`; its scope is `Аудит цели: ` followed by the target path, which can be read back |
| `Nodes.PlannerNode` | src/code_auditor/nodes.py:36-48 | returns only `plan`: the LLM's when the call succeeds, otherwise the fallback |
| `Nodes.BuiltInReasonsValid` | src/code_auditor/nodes.py:55-93 | the guard and fallback decisions meet the 5-character reason minimum |
| `Nodes.ReactDecisionNode` | src/code_auditor/nodes.py:51-112 | returns only history, next action and counter: the old history plus one recorded decision, that decision's action, and the counter plus 1 |
| `Nodes.GuardIgnoresOracle` | src/code_auditor/nodes.py:55-60 | at or above the limit the LLM's answer changes nothing, and the proposal is `finish` with the guard reason and `done` |
| `Nodes.OracleAnswerUsed` | src/code_auditor/nodes.py:80-87 | below the limit a successful LLM answer is the proposal |
| `Nodes.OracleFinishHonoured` | src/code_auditor/nodes.py:80-106 | below the limit and with outputs, an LLM `finish` is recorded exactly as given |
| `Nodes.OracleFailureFallback` | src/code_auditor/nodes.py:88-93 | below the limit, a failed LLM call proposes `run_parallel_checks` exactly when there are no outputs; `done` holds exactly when there are outputs |
| `Nodes.NoOutputsForcesChecks` | src/code_auditor/nodes.py:95-100 | without outputs the recorded decision is `run_parallel_checks`, not done, with the proposal's reason, even after the guard fired |
| `Nodes.OutputsForceFinish` | src/code_auditor/nodes.py:101-106 | with outputs the recorded action is `finish`; a proposed `finish` is kept unchanged; anything else becomes `finish`, done, with its reason |
| `Nodes.RecordedDecisionValid` | src/code_auditor/nodes.py:55-106 | given a schema-valid LLM answer, the recorded decision is schema-valid |
| `Nodes.AllFindingsConcat` | src/code_auditor/nodes.py:144-146 | the fallback findings of earlier outputs come before those of later outputs |
| `Nodes.AllFindingsOne` | src/code_auditor/nodes.py:144-146 | one output contributes exactly its findings, in order |
| `Nodes.FallbackReportShape` | src/code_auditor/nodes.py:143-156 | the fallback findings are all findings in output order; the key risks are the messages of the first `min(3, n)` findings; the summary is the fixed fallback summary and the next steps are exactly the three fixed remediation steps |
| `Nodes.CollectFindings` | src/code_auditor/nodes.py:144-146 | the `for`/`extend` loop yields all findings in output order, then finding order |
| `Nodes.WriterNode` | src/code_auditor/nodes.py:115-158 | returns only `report`: the LLM's when the call succeeds, otherwise the fallback report |
| `Graph.RouteFromReact` | src/code_auditor/graph.py:35-38 | routes to the checks exactly when the next action is `run_parallel_checks`, and to the writer otherwise, including when there is none |
| `Graph.Successor` | src/code_auditor/graph.py:41-60 | start to planner, planner to decision, decision to the route, checks to decision, writer to end |
| `Graph.ParallelChecksNode` | src/code_auditor/graph.py:14-32 | returns only `tool_outputs`: the old outputs, then ruff's, then radon's; only ruff gets the simulation flag |
| `Graph.RunAudit` | src/code_auditor/graph.py:63-77 | defaults `simulate_retry = False` and `max_loops = 3`; fails only on a short query; a run visits planner, decision, checks, decision and writer once each; it ends with two valid decisions (checks, then finish), counter 2, the two outputs, and the LLM's or the fallback plan and report |

## Left out

- Language-model calls, prompt templates and `_to_json` (src/code_auditor/nodes.py:13-39, 62-87, 116-142) are not modelled. Each call is an input: `Some` of a schema-valid value, or `None` when it raised. `Graph.Oracle.decide` gives the answer for each counter value. The run is otherwise deterministic, so this covers every answering strategy.
- src/code_auditor/config.py is not part of this model. It reads environment variables and builds the LLM client, and every lookup has a default.
- `subprocess.run`, `json.loads` and the path normalisation of `_safe_path` are not modelled. A run is given as its exit code, stdout and stderr, and parsing as "malformed or parsed rows". Launch failures, such as a missing executable, are not modelled. So `OtherToolError` is part of the retry policy but never produced.
- Parseable JSON of the wrong shape is not modelled. In the source most such payloads raise `AttributeError` or `TypeError`: a number, boolean or `null` as ruff's payload or as a radon block list cannot be iterated (`TypeError`); non-object rows or blocks, a non-object radon payload, and a `null` rule code (whose `startswith` is called) raise `AttributeError`. An empty object `{}` from ruff is not an error: the loop does nothing and the result is a success with zero findings. JSON values are taken as the text `str()` would give.
- Each run takes one `Graph.LinterRuns` value: the linter output for the audited path. The model proves that only one round of checks ever happens.
- The thread pool in `parallel_checks_node` is not modelled. The two checks run one after the other, ruff first, which is the order the source merges their results in.
- The retry backoff timings (0.5 to 2 s) are not modelled. Only the attempt bound and the retry and re-raise rule are.
- The graph library itself (`StateGraph`, `compile`, `invoke`, its step limit) is replaced by the driver loop of `Graph.RunAudit`. A run takes five node steps.
- `ToolInput` (src/code_auditor/models.py:42-47) is not used by the core and is not modelled.
- Every LLM decision answer is required to have passed schema validation (in `Graph.RunAudit` and `Nodes.RecordedDecisionValid`). An answer that fails validation raises inside the call, which the model treats as `None`.

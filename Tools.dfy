/**
 * The two linter adapters (tools.py). A subprocess run is given as its
 * exit code, standard output and standard error; `json.loads` is given as
 * its outcome on that output (malformed, or the parsed rows). The
 * process-wide set of keys whose simulated transient failure already
 * happened is the one piece of mutable state, kept in `TransientRegistry`.
 */
module Tools {
  import opened Wrappers
  import opened Models
  import Seqs

  // ---------------------------------------------------------------------
  // Severity tables
  // ---------------------------------------------------------------------

  /** Python's `s.startswith(prefixes)` for a tuple of prefixes. */
  predicate StartsWithAny(s: string, prefixes: seq<string>) {
    exists p :: p in prefixes && p <= s
  }

  /** `_severity_from_ruff`, stated through the leading characters of the rule code. */
  function SeverityFromRuff(code: string): (s: Severity)
    ensures s == High <==> |code| > 0 && (code[0] == 'F' || code[0] == 'B' || (code[0] == 'E' && |code| > 1 && code[1] == '9'))
    ensures s == Medium <==> |code| > 0 && (code[0] == 'W' || (code[0] == 'E' && !(|code| > 1 && code[1] == '9')))
    ensures s == Low <==> !(|code| > 0 && code[0] in "FBEW")
  {
    assert StartsWithAny(code, ["F", "E9", "B"]) <==> "F" <= code || "E9" <= code || "B" <= code by {
      if "F" <= code || "E9" <= code || "B" <= code {
        var p := if "F" <= code then "F" else if "E9" <= code then "E9" else "B";
        assert p in ["F", "E9", "B"] && p <= code;
      }
    }
    assert StartsWithAny(code, ["E", "W"]) <==> "E" <= code || "W" <= code by {
      if "E" <= code || "W" <= code {
        var p := if "E" <= code then "E" else "W";
        assert p in ["E", "W"] && p <= code;
      }
    }
    assert "E9" <= code <==> |code| > 1 && code[0] == 'E' && code[1] == '9' by {
      if |code| > 1 && code[0] == 'E' && code[1] == '9' {
        assert code[..2] == "E9";
      }
    }
    if StartsWithAny(code, ["F", "E9", "B"]) then High
    else if StartsWithAny(code, ["E", "W"]) then Medium
    else Low
  }

  /** `UNKNOWN`, the rule given to a row without a code, and the empty code are both low. */
  lemma UnknownRuleIsLow()
    ensures SeverityFromRuff("UNKNOWN") == Low
    ensures SeverityFromRuff("") == Low
  {
  }

  /** The rank table of `_severity_from_radon`. */
  const RadonRankSeverity: map<string, Severity> :=
    map["A" := Low, "B" := Low, "C" := Medium, "D" := High, "E" := Critical, "F" := Critical]

  /** `_severity_from_radon`: the table, with medium for every rank not in it. */
  function SeverityFromRadon(rank: string): (s: Severity)
    ensures s == Low <==> rank == "A" || rank == "B"
    ensures s == Medium <==> rank != "A" && rank != "B" && rank != "D" && rank != "E" && rank != "F"
    ensures s == High <==> rank == "D"
    ensures s == Critical <==> rank == "E" || rank == "F"
  {
    if rank in RadonRankSeverity then RadonRankSeverity[rank] else Medium
  }

  /** Severities in increasing order of gravity. */
  function SeverityLevel(s: Severity): nat {
    match s
    case Low => 0
    case Medium => 1
    case High => 2
    case Critical => 3
  }

  /** Over the ranks A to F, a worse rank never gets a milder severity. */
  lemma RadonSeverityMonotone(r1: char, r2: char)
    requires 'A' <= r1 <= r2 <= 'F'
    ensures SeverityLevel(SeverityFromRadon([r1])) <= SeverityLevel(SeverityFromRadon([r2]))
  {
  }

  // ---------------------------------------------------------------------
  // Subprocess results and parsed output
  // ---------------------------------------------------------------------

  /** What `_run_subprocess` returns. */
  datatype ProcessResult = ProcessResult(code: int, stdout: string, stderr: string)

  /** The outcome of `json.loads` on a tool's standard output. */
  datatype Json<T> = Malformed | Parsed(value: T)

  /** The characters for which Python's `str.isspace()` holds, which `str.strip()` removes. */
  predicate IsPyWhitespace(c: char) {
    || ('\t' <= c <= '\r')
    || ('\U{1C}' <= c <= ' ')
    || c == '\U{85}' || c == '\U{A0}' || c == '\U{1680}'
    || ('\U{2000}' <= c <= '\U{200A}')
    || c == '\U{2028}' || c == '\U{2029}' || c == '\U{202F}' || c == '\U{205F}' || c == '\U{3000}'
  }

  /** `not s.strip()`. */
  predicate IsBlank(s: string) {
    forall i :: 0 <= i < |s| ==> IsPyWhitespace(s[i])
  }

  /** `json.loads(stdout) if stdout.strip() else empty`. */
  function LoadJson<T>(stdout: string, json: Json<T>, empty: T): (r: Json<T>)
    ensures IsBlank(stdout) ==> r == Parsed(empty)
    ensures !IsBlank(stdout) ==> r == json
  {
    if IsBlank(stdout) then Parsed(empty) else json
  }

  /** `str(n)` for an integer. */
  function IntToString(n: int): (s: string)
    ensures |s| > 0
    ensures s[0] == '-' <==> n < 0
  {
    if n < 0 then "-" + NatToString(-n) else NatToString(n)
  }

  /** Decimal digits of `n`, most significant first, without leading zeros. */
  function NatToString(n: nat): (s: string)
    ensures |s| > 0 && AllDigits(s)
    ensures |s| > 1 ==> s[0] != '0'
  {
    if n < 10 then [Digits[n]] else NatToString(n / 10) + [Digits[n % 10]]
  }

  const Digits := "0123456789"

  predicate AllDigits(s: string) {
    forall i :: 0 <= i < |s| ==> '0' <= s[i] <= '9'
  }

  /** The number a string of decimal digits denotes. */
  function DigitsValue(s: string): nat
    requires AllDigits(s)
  {
    if s == [] then 0 else DigitsValue(s[..|s| - 1]) * 10 + ((s[|s| - 1] as int) - ('0' as int))
  }

  /** The number an optionally signed decimal string denotes (Python's `int(s)`). */
  function IntValue(s: string): int
    requires |s| > 0 && (if s[0] == '-' then AllDigits(s[1..]) else AllDigits(s))
  {
    if s[0] == '-' then -(DigitsValue(s[1..]) as int) else DigitsValue(s)
  }

  /** Reading the digits back gives the number. */
  lemma {:induction false} NatToStringRoundTrip(n: nat)
    ensures DigitsValue(NatToString(n)) == n
  {
    var s := NatToString(n);
    if n >= 10 {
      NatToStringRoundTrip(n / 10);
      assert s[..|s| - 1] == NatToString(n / 10);
    }
  }

  /** The text of an exit code denotes that code. */
  lemma IntToStringRoundTrip(n: int)
    ensures IntValue(IntToString(n)) == n
  {
    if n < 0 {
      assert IntToString(n)[1..] == NatToString(-n);
      NatToStringRoundTrip(-n);
    } else {
      NatToStringRoundTrip(n);
    }
  }

  /** The error text of a run with a bad exit code: its standard error, or a message naming the code. */
  function ExitError(tool: string, run: ProcessResult): (e: string)
    ensures |e| > 0
    ensures run.stderr != "" ==> e == run.stderr
    ensures run.stderr == "" ==> e == tool + " завершился с кодом " + IntToString(run.code)
  {
    if run.stderr != "" then run.stderr else tool + " завершился с кодом " + IntToString(run.code)
  }

  // ---------------------------------------------------------------------
  // ruff
  // ---------------------------------------------------------------------

  /** One row of ruff's JSON output; `None` is a missing key. */
  datatype RuffRow = RuffRow(code: Option<string>, filename: Option<string>, message: Option<string>)

  const UnknownRule := "UNKNOWN"
  const MissingMessage := "Сообщение отсутствует"
  const RuffSuggestion := "Исправьте lint-замечание и повторите аудит."
  const RuffParseError := "Не удалось распарсить JSON-вывод ruff."

  /** ruff treats exit code 1 ("violations found") as a successful run. */
  predicate RuffExitOk(code: int) {
    code == 0 || code == 1
  }

  /** The finding built from one ruff row. */
  function RuffFinding(row: RuffRow, targetPath: string): Finding
  {
    var rule := row.code.GetOr(UnknownRule);
    Finding(SeverityFromRuff(rule), row.filename.GetOr(targetPath), rule + ": " + row.message.GetOr(MissingMessage), RuffSuggestion)
  }

  /** One finding per row, in row order. */
  function RuffFindings(rows: seq<RuffRow>, targetPath: string): seq<Finding>
  {
    seq(|rows|, i requires 0 <= i < |rows| => RuffFinding(rows[i], targetPath))
  }

  /** A row's finding names its rule ahead of its message, is graded by that rule, and falls back to the audited path. */
  lemma RuffFindingFromRow(row: RuffRow, targetPath: string)
    ensures var f := RuffFinding(row, targetPath);
      && f.message == row.code.GetOr(UnknownRule) + ": " + row.message.GetOr(MissingMessage)
      && f.severity == SeverityFromRuff(row.code.GetOr(UnknownRule))
      && f.suggestion == RuffSuggestion
      && (row.filename.Some? ==> f.file == row.filename.value)
      && (row.filename.None? ==> f.file == targetPath)
      && (row.code.None? ==> f.severity == Low)
    // A missing key behaves exactly as the key holding its default.
    ensures row.code.None? ==> RuffFinding(row, targetPath) == RuffFinding(row.(code := Some(UnknownRule)), targetPath)
    ensures row.message.None? ==> RuffFinding(row, targetPath) == RuffFinding(row.(message := Some(MissingMessage)), targetPath)
    ensures row.filename.None? ==> RuffFinding(row, targetPath) == RuffFinding(row.(filename := Some(targetPath)), targetPath)
  {
    var rule := row.code.GetOr(UnknownRule);
    var f := RuffFinding(row, targetPath);
    assert f.message == rule + ": " + row.message.GetOr(MissingMessage);
    assert f.message[..|rule + ": "|] == rule + ": ";
  }

  /**
   * The `ToolOutput` of one ruff run that got past the transient-failure
   * simulation: a bad exit code or unparseable output gives a failed output
   * with the standard output kept, anything else one finding per row.
   */
  function RuffOutcome(targetPath: string, run: ProcessResult, json: Json<seq<RuffRow>>): (r: ToolOutput)
    ensures r.toolName == Ruff && r.rawOutput == run.stdout
    ensures r.ok <==> RuffExitOk(run.code) && LoadJson(run.stdout, json, []).Parsed?
    ensures r.ok <==> r.error.None?
    ensures !r.ok ==> r.findings == [] && |r.error.value| > 0
    ensures !RuffExitOk(run.code) ==> r.error == Some(ExitError("ruff", run))
    ensures RuffExitOk(run.code) && !r.ok ==> r.error == Some(RuffParseError)
    ensures r.ok ==> r.findings == RuffFindings(LoadJson(run.stdout, json, []).value, targetPath)
  {
    if !RuffExitOk(run.code) then
      ToolOutput(Ruff, false, [], run.stdout, Some(ExitError("ruff", run)))
    else
      match LoadJson(run.stdout, json, [])
      case Malformed => ToolOutput(Ruff, false, [], run.stdout, Some(RuffParseError))
      case Parsed(rows) => ToolOutput(Ruff, true, RuffFindings(rows, targetPath), run.stdout, None)
  }

  /** A successful ruff run with blank output is a success with no findings, whatever the parser would say. */
  lemma RuffBlankOutput(targetPath: string, run: ProcessResult, json: Json<seq<RuffRow>>)
    requires RuffExitOk(run.code) && IsBlank(run.stdout)
    ensures RuffOutcome(targetPath, run, json).ok
    ensures RuffOutcome(targetPath, run, json).findings == []
  {
  }

  /** The append loop of `run_ruff_check`. */
  method CollectRuffFindings(rows: seq<RuffRow>, targetPath: string) returns (findings: seq<Finding>)
    ensures findings == RuffFindings(rows, targetPath)
  {
    findings := [];
    for i := 0 to |rows|
      invariant |findings| == i
      invariant forall k :: 0 <= k < i ==> findings[k] == RuffFinding(rows[k], targetPath)
    {
      findings := findings + [RuffFinding(rows[i], targetPath)];
    }
  }

  /** `run_ruff_check` from the subprocess call on (lines after the simulation check). */
  method RuffFromRun(targetPath: string, run: ProcessResult, json: Json<seq<RuffRow>>) returns (out: ToolOutput)
    ensures out == RuffOutcome(targetPath, run, json)
  {
    if run.code != 0 && run.code != 1 {
      return ToolOutput(Ruff, false, [], run.stdout, Some(ExitError("ruff", run)));
    }
    var rows: seq<RuffRow>;
    if IsBlank(run.stdout) {
      rows := [];
    } else if json.Malformed? {
      return ToolOutput(Ruff, false, [], run.stdout, Some(RuffParseError));
    } else {
      rows := json.value;
    }
    var findings := CollectRuffFindings(rows, targetPath);
    out := ToolOutput(Ruff, true, findings, run.stdout, None);
  }

  // ---------------------------------------------------------------------
  // radon
  // ---------------------------------------------------------------------

  /** One block of radon's JSON output; `None` is a missing key, values are their `str()` text. */
  datatype RadonBlock = RadonBlock(rank: Option<string>, complexity: Option<string>, name: Option<string>)

  /** One entry of radon's JSON object: a file and its blocks, in the object's order. */
  datatype RadonFile = RadonFile(filename: string, blocks: seq<RadonBlock>)

  const DefaultRank := "C"
  const UnknownComplexity := "unknown"
  const UnknownBlock := "<unknown>"
  const RadonSuggestion := "Рефакторинг длинных/ветвистых функций в более мелкие блоки."
  const RadonParseError := "Не удалось распарсить JSON-вывод radon."

  /** The finding built from one radon block of `filename`. */
  function RadonFinding(filename: string, block: RadonBlock): Finding
  {
    var rank := block.rank.GetOr(DefaultRank);
    Finding(SeverityFromRadon(rank), filename,
      "Сложность " + rank + " (" + block.complexity.GetOr(UnknownComplexity) + ") в " + block.name.GetOr(UnknownBlock),
      RadonSuggestion)
  }

  /** A block without a rank is graded as rank C, that is medium, and stays in its file. */
  lemma RadonMissingRank(filename: string, block: RadonBlock)
    requires block.rank.None?
    ensures RadonFinding(filename, block) == RadonFinding(filename, block.(rank := Some(DefaultRank)))
    ensures RadonFinding(filename, block).severity == Medium
    ensures RadonFinding(filename, block).file == filename
  {
  }

  /** The findings of one file, in block order. */
  function FileFindings(file: RadonFile): seq<Finding>
  {
    seq(|file.blocks|, j requires 0 <= j < |file.blocks| => RadonFinding(file.filename, file.blocks[j]))
  }

  function PerFile(files: seq<RadonFile>): seq<seq<Finding>>
  {
    seq(|files|, i requires 0 <= i < |files| => FileFindings(files[i]))
  }

  /** All findings: file order first, then block order. */
  function RadonFindings(files: seq<RadonFile>): seq<Finding>
  {
    Seqs.Flatten(PerFile(files))
  }

  /** The findings of a payload are those of its first files followed by those of the rest. */
  lemma RadonFindingsConcat(a: seq<RadonFile>, b: seq<RadonFile>)
    ensures RadonFindings(a + b) == RadonFindings(a) + RadonFindings(b)
  {
    assert PerFile(a + b) == PerFile(a) + PerFile(b);
    Seqs.FlattenAppend(PerFile(a), PerFile(b));
  }

  /** A one-file payload gives one finding per block of that file, in block order. */
  lemma RadonFindingsOneFile(f: RadonFile)
    ensures |RadonFindings([f])| == |f.blocks|
    ensures forall j :: 0 <= j < |f.blocks| ==> RadonFindings([f])[j] == RadonFinding(f.filename, f.blocks[j])
  {
    assert PerFile([f]) == [FileFindings(f)];
    Seqs.FlattenSingle(FileFindings(f));
  }

  /** Adding one file to the payload appends its findings. */
  lemma RadonFindingsSnoc(files: seq<RadonFile>, i: nat)
    requires i < |files|
    ensures RadonFindings(files[..i + 1]) == RadonFindings(files[..i]) + FileFindings(files[i])
  {
    assert PerFile(files[..i + 1])[..i] == PerFile(files[..i]);
  }

  /** `run_radon_complexity`: radon treats every non-zero exit code as a failure. */
  function RadonOutcome(targetPath: string, run: ProcessResult, json: Json<seq<RadonFile>>): (r: ToolOutput)
    ensures r.toolName == Radon && r.rawOutput == run.stdout
    ensures r.ok <==> run.code == 0 && LoadJson(run.stdout, json, []).Parsed?
    ensures r.ok <==> r.error.None?
    ensures !r.ok ==> r.findings == [] && |r.error.value| > 0
    ensures run.code != 0 ==> r.error == Some(ExitError("radon", run))
    ensures run.code == 0 && !r.ok ==> r.error == Some(RadonParseError)
    ensures r.ok ==> r.findings == RadonFindings(LoadJson(run.stdout, json, []).value)
  {
    if run.code != 0 then
      ToolOutput(Radon, false, [], run.stdout, Some(ExitError("radon", run)))
    else
      match LoadJson(run.stdout, json, [])
      case Malformed => ToolOutput(Radon, false, [], run.stdout, Some(RadonParseError))
      case Parsed(files) => ToolOutput(Radon, true, RadonFindings(files), run.stdout, None)
  }

  /** A radon run that exits with 1 fails with empty findings and a non-empty error. */
  lemma RadonExitOneFails(targetPath: string, run: ProcessResult, json: Json<seq<RadonFile>>)
    requires run.code == 1
    ensures !RadonOutcome(targetPath, run, json).ok
    ensures RadonOutcome(targetPath, run, json).findings == []
    ensures RadonOutcome(targetPath, run, json).error.Some?
  {
  }

  /** `run_radon_complexity`, with its nested append loops. Its `options` are ignored, so the model has none. */
  method RunRadonComplexity(targetPath: string, run: ProcessResult, json: Json<seq<RadonFile>>) returns (out: ToolOutput)
    ensures out == RadonOutcome(targetPath, run, json)
  {
    if run.code != 0 {
      return ToolOutput(Radon, false, [], run.stdout, Some(ExitError("radon", run)));
    }
    var files: seq<RadonFile>;
    if IsBlank(run.stdout) {
      files := [];
    } else if json.Malformed? {
      return ToolOutput(Radon, false, [], run.stdout, Some(RadonParseError));
    } else {
      files := json.value;
    }
    var findings := [];
    for i := 0 to |files|
      invariant findings == RadonFindings(files[..i])
    {
      var file := files[i];
      for j := 0 to |file.blocks|
        invariant findings == RadonFindings(files[..i]) + FileFindings(file)[..j]
      {
        findings := findings + [RadonFinding(file.filename, file.blocks[j])];
        assert FileFindings(file)[..j + 1] == FileFindings(file)[..j] + [RadonFinding(file.filename, file.blocks[j])];
      }
      assert FileFindings(file)[..|file.blocks|] == FileFindings(file);
      RadonFindingsSnoc(files, i);
    }
    assert files[..|files|] == files;
    out := ToolOutput(Radon, true, findings, run.stdout, None);
  }

  // ---------------------------------------------------------------------
  // Transient failures and retry
  // ---------------------------------------------------------------------

  /** The options a tool adapter reads: only `simulate_transient_once` (absent means false). */
  datatype ToolOptions = ToolOptions(simulateTransientOnce: bool)

  /** An exception raised by an attempt: the retryable kind, or any other. */
  datatype ToolError = TransientToolError(message: string) | OtherToolError(message: string)

  /** One call of the wrapped function: it returned, or it raised. */
  datatype Attempt = Returned(out: ToolOutput) | Raised(err: ToolError)

  /** `stop_after_attempt(3)`. */
  const MaxAttempts: nat := 3

  const SimulatedFailureMessage := "Смоделированная временная ошибка для демонстрации retry."

  /** The retry policy: after attempt number `n`, call again only on a transient error and only if fewer than 3 attempts were made. */
  predicate RetriesAfter(a: Attempt, n: nat) {
    a.Raised? && a.err.TransientToolError? && n < MaxAttempts
  }

  /** The key of the simulated failure for a path. */
  function FailKey(targetPath: string): (k: string)
    ensures "ruff::" <= k && k[|"ruff::"|..] == targetPath
  {
    "ruff::" + targetPath
  }

  /** Distinct paths have distinct keys, so each path fails at most once on its own. */
  lemma FailKeyInjective(p: string, q: string)
    requires FailKey(p) == FailKey(q)
    ensures p == q
  {
    assert p == FailKey(p)[|"ruff::"|..];
  }

  /** `_TRANSIENT_FAILED_KEYS` with the ruff adapter that reads and grows it. */
  class TransientRegistry {
    var failedKeys: set<string>

    /** The set is empty when the process starts. */
    constructor ()
      ensures failedKeys == {}
    {
      failedKeys := {};
    }

    /**
     * One call of `run_ruff_check` (without its retry decorator): with the
     * flag set and the path's key not yet recorded, record it and raise a
     * transient error; otherwise run ruff.
     */
    method RunRuffCheckOnce(targetPath: string, options: ToolOptions, run: ProcessResult, json: Json<seq<RuffRow>>) returns (a: Attempt)
      modifies this
      ensures failedKeys == if options.simulateTransientOnce then old(failedKeys) + {FailKey(targetPath)} else old(failedKeys)
      ensures a == if options.simulateTransientOnce && FailKey(targetPath) !in old(failedKeys)
                   then Raised(TransientToolError(SimulatedFailureMessage))
                   else Returned(RuffOutcome(targetPath, run, json))
    {
      var failKey := FailKey(targetPath);
      if options.simulateTransientOnce && failKey !in failedKeys {
        failedKeys := failedKeys + {failKey};
        return Raised(TransientToolError(SimulatedFailureMessage));
      }
      var out := RuffFromRun(targetPath, run, json);
      a := Returned(out);
    }

    /**
     * `run_ruff_check` with its retry decorator: attempts are repeated while
     * the policy says so, and the last attempt's outcome (an error re-raised
     * as it is) is the result. `trace` lists the attempts made. Because the
     * only transient error is the simulated one, the call never raises, and
     * makes a second attempt exactly when the simulation fires.
     */
    method RunRuffCheck(targetPath: string, options: ToolOptions, run: ProcessResult, json: Json<seq<RuffRow>>)
      returns (a: Attempt, ghost trace: seq<Attempt>)
      modifies this
      ensures 1 <= |trace| <= MaxAttempts && a == trace[|trace| - 1]
      ensures forall i :: 0 <= i < |trace| - 1 ==> RetriesAfter(trace[i], i + 1)
      ensures !RetriesAfter(a, |trace|)
      ensures a == Returned(RuffOutcome(targetPath, run, json))
      ensures |trace| == if options.simulateTransientOnce && FailKey(targetPath) !in old(failedKeys) then 2 else 1
      ensures failedKeys == if options.simulateTransientOnce then old(failedKeys) + {FailKey(targetPath)} else old(failedKeys)
    {
      var attempts: nat := 0;
      trace := [];
      while true
        invariant attempts == |trace| <= 1
        invariant forall i :: 0 <= i < |trace| ==> RetriesAfter(trace[i], i + 1)
        invariant attempts == 1 ==> options.simulateTransientOnce && FailKey(targetPath) !in old(failedKeys)
        invariant attempts == 0 ==> failedKeys == old(failedKeys)
        invariant attempts == 1 ==> failedKeys == old(failedKeys) + {FailKey(targetPath)}
        decreases MaxAttempts - attempts
      {
        a := RunRuffCheckOnce(targetPath, options, run, json);
        attempts := attempts + 1;
        trace := trace + [a];
        if !RetriesAfter(a, attempts) {
          return;
        }
      }
    }
  }
}

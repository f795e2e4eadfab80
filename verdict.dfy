/**
 * Verdict interpretation (`resolve_exit_code`): the lint API answers either
 * `{status, errors, warnings}` (global endpoint) or `{valid, errors,
 * warnings}` (project endpoint). The verdict is an exit code, 0 for a valid
 * configuration and 1 otherwise, together with the records it logs.
 */
module Verdict {
  import opened Wrappers

  /** A parsed lint response; a key the server left out is `None`. */
  datatype LintResponse = LintResponse(status: Option<string>, valid: Option<bool>, errors: seq<string>)

  datatype Level = Info | Error

  datatype LogRecord = LogRecord(level: Level, message: string)

  datatype Verdict = Verdict(code: int, log: seq<LogRecord>)

  const ValidMessage: string := "GitLab CI configuration is valid"
  const InvalidMessage: string := "GitLab CI configuration is invalid"

  /**
   * The local `valid` after both probes: `None` at first, then set from
   * `status` if present, then overwritten from `valid` if present.
   */
  function Validity(data: LintResponse): Option<bool> {
    var fromStatus := if data.status.Some? then Some(data.status.value == "valid") else None;
    if data.valid.Some? then data.valid else fromStatus
  }

  /** One error-level record per message, in order. */
  function ErrorRecords(errors: seq<string>): seq<LogRecord> {
    if errors == [] then [] else [LogRecord(Error, errors[0])] + ErrorRecords(errors[1..])
  }

  /** The messages of the error-level records of a log, in order. */
  function ErrorMessages(log: seq<LogRecord>): seq<string> {
    if log == [] then []
    else (if log[0].level == Error then [log[0].message] else []) + ErrorMessages(log[1..])
  }

  /** Reading the error messages back from the records recovers exactly the errors logged. */
  lemma {:induction false} ErrorMessagesOfRecords(errors: seq<string>)
    ensures ErrorMessages(ErrorRecords(errors)) == errors
  {
    if errors != [] {
      ErrorMessagesOfRecords(errors[1..]);
      var log := ErrorRecords(errors);
      assert log[0] == LogRecord(Error, errors[0]);
      assert log[1..] == ErrorRecords(errors[1..]);
    }
  }

  /**
   * `resolve_exit_code`: a response without a truthy verdict is invalid,
   * logs the invalid message and then every error, and yields 1; otherwise
   * it logs the valid message and yields 0.
   */
  function ResolveExitCode(data: LintResponse): (v: Verdict)
    ensures v.code == 0 || v.code == 1
    ensures data.valid.Some? ==> (v.code == 0 <==> data.valid.value)
    ensures data.valid.None? && data.status.Some? ==> (v.code == 0 <==> data.status.value == "valid")
    ensures data.valid.None? && data.status.None? ==> v.code == 1
    ensures |v.log| > 0 && v.log[0] == LogRecord(Info, if v.code == 0 then ValidMessage else InvalidMessage)
    ensures ErrorMessages(v.log) == if v.code == 1 then data.errors else []
  {
    var valid := Validity(data);
    if !(valid.Some? && valid.value) then
      var log := [LogRecord(Info, InvalidMessage)] + ErrorRecords(data.errors);
      ErrorMessagesOfRecords(data.errors);
      assert log[1..] == ErrorRecords(data.errors);
      Verdict(1, log)
    else
      var log := [LogRecord(Info, ValidMessage)];
      assert log[1..] == [];
      Verdict(0, log)
  }

  const TestError: string := "(<unknown>): did not find expected key while parsing a block mapping at line 1 column 1"

  /** The four responses the repository's tests feed to `resolve_exit_code`. */
  lemma ResolveExitCodeExamples()
    ensures ResolveExitCode(LintResponse(Some("valid"), None, [])).code == 0
    ensures ResolveExitCode(LintResponse(None, Some(true), [])).code == 0
    ensures ResolveExitCode(LintResponse(Some("invalid"), None, [TestError])).code == 1
    ensures ResolveExitCode(LintResponse(None, Some(false), [TestError])).code == 1
    ensures ErrorMessages(ResolveExitCode(LintResponse(Some("invalid"), None, [TestError])).log) == [TestError]
  {
  }
}

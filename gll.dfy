/**
 * One run of the `gll` command after Click has parsed the options: resolve
 * the options against the CI environment, send one lint request, and turn
 * the answer into the process exit code. Reading the file and the HTTP
 * exchange are parameters of the run.
 */
module Gll {
  import opened Wrappers
  import opened Values
  import opened Resolver
  import opened Request
  import opened Verdict

  datatype Outcome =
    | ArgumentError                                   // `get_validation_data(**kwargs)` raised `TypeError`
    | ApiError(request: LintRequest, message: string) // the API answered with a status other than 200
    | Linted(request: LintRequest, verdict: Verdict)  // the API answered and the verdict was interpreted

  /**
   * The process exit code: the verdict's code after a lint, and 1 when an
   * exception ended the run (both the uncaught `TypeError` and Click's
   * handling of the API error exit with status 1).
   */
  function ExitCode(outcome: Outcome): int {
    if outcome.Linted? then outcome.verdict.code else 1
  }

  /**
   * Resolution only rewrites keys among the six parameter names, so a
   * dictionary holding exactly those names still binds after resolution.
   */
  lemma ResolutionKeepsParameterNames(kwargs: map<string, Value>, env: map<string, string>,
                                      resolved: map<string, Value>)
    requires kwargs.Keys == ParameterNames
    requires Resolved(kwargs, env, resolved)
    ensures resolved.Keys == ParameterNames
    ensures BindParameters(resolved).Some?
  {
    forall key
      ensures key in resolved <==> key in ParameterNames
    {
      if key == DomainArgument {
        assert DomainRule(kwargs, env, resolved);
      } else if IsMappedArgument(key) {
        var i :| 0 <= i < |ArgumentMapping| && ArgumentMapping[i].0 == key;
        assert key in ParameterNames by {
          assert i == 0 || i == 1 || i == 2 || i == 3;
        }
        assert FallbackRule(kwargs, env, resolved, ArgumentMapping[i].0, ArgumentMapping[i].1);
      } else {
        assert SameEntry(kwargs, resolved, key);
      }
    }
  }

  /**
   * `gll` from the resolution of the options to the verdict. `readFile`
   * gives the text of a file by path and `server` the answer to a request.
   */
  method Run(kwargs: map<string, Value>, env: map<string, string>,
             readFile: string -> string, server: LintRequest -> HttpResponse)
    returns (resolved: map<string, Value>, outcome: Outcome)
    ensures Resolved(kwargs, env, resolved)
    ensures outcome.ArgumentError? <==> resolved.Keys != ParameterNames
    ensures kwargs.Keys == ParameterNames ==> !outcome.ArgumentError?
    ensures !outcome.ArgumentError? ==>
              RequestFor(BindParameters(resolved).value, readFile(Render(resolved["file"])), outcome.request)
    ensures outcome.ApiError? ==>
              server(outcome.request).statusCode != 200
              && outcome.message == CheckResponse(server(outcome.request)).error
    ensures outcome.Linted? ==>
              server(outcome.request).statusCode == 200
              && outcome.verdict == ResolveExitCode(server(outcome.request).data)
    ensures ExitCode(outcome) == 0 || ExitCode(outcome) == 1
    ensures ExitCode(outcome) == 0 ==> outcome.Linted? && Validity(server(outcome.request).data) == Some(true)
  {
    resolved := ResolveParameters(kwargs, env);
    if kwargs.Keys == ParameterNames {
      ResolutionKeepsParameterNames(kwargs, env, resolved);
    }
    var bound := BindParameters(resolved);
    if bound.None? {
      outcome := ArgumentError;
      return;
    }
    var request := BuildRequest(bound.value, readFile(Render(bound.value.file)));
    var response := server(request);
    match CheckResponse(response)
    case Err(message) =>
      outcome := ApiError(request, message);
    case Ok(data) =>
      outcome := Linted(request, ResolveExitCode(data));
  }
}

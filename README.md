# gitlab-lint, modelled in Dafny

`gll` validates a `.gitlab-ci.yml` against GitLab's CI lint API. This project
models its core, `src/gitlab_lint/gll.py`, in three parts plus the run that
joins them:

- **Configuration resolution** (`resolver.dfy`). Click's keyword argument
  dictionary is a `map<string, Value>` (`Value` is Python `None`, a string or
  a boolean). The process environment is a `map<string, string>`. Python
  truthiness is explicit (`Values.Truthy`, `Values.EnvSet`).
  `ResolveParameters` is the imperative loop over the argument mapping
  followed by the domain special case. It is proved against the relational
  specification `Resolved`, whose rules fix every key of the result.
- **Request shaping** (`request.dfy`). This covers binding the dictionary to
  `get_validation_data`'s parameters, the query parameters built by
  successive updates, the endpoint URL, TLS verification (`verify = not
  insecure`) and the "status other than 200 is an API error" rule.
- **Verdict interpretation** (`verdict.dfy`). `resolve_exit_code` maps a lint
  response with optional `status` and `valid` keys to exit code 0 or 1. It
  also yields the log records it would emit: the info line, then on failure
  every error in order.
- **The run** (`gll.dfy`). `Gll.Run` chains resolution, binding, the request
  and the verdict. Reading the file and the HTTP exchange are function
  parameters (`readFile`, `server`).

Points where the code's behaviour is easy to misread:

- "Absent" means falsy. An explicit empty string is replaced from the
  environment like `None`. An environment variable set to `""` counts as unset.
- When a response carries both keys, `valid` decides; `status` is overwritten.
- `file` has a Click default (`.gitlab-ci.yml`), which is truthy. So
  `CI_CONFIG_PATH` is only consulted when `file` is the empty string.
- The domain is checked against hostname syntax in Click's callback, before
  the fallback runs. A domain taken from `CI_SERVER_HOST` is never checked.

## Model

| member | source | states |
|---|---|---|
| `Resolver.ResolveParameters` | src/gitlab_lint/gll.py:84-107 | For token, reference, project and file: a truthy explicit value keeps its entry. A falsy one becomes the mapped CI variable exactly when that variable is set and non-empty, and keeps its entry otherwise. The domain becomes `CI_SERVER_HOST` exactly when it still equals `"gitlab.com"` and the variable is set. A domain other than `gitlab.com` is never overridden; an explicit `gitlab.com` is replaced like the default. No other key is touched. |
| `Resolver.ResolvedIsUnique` | src/gitlab_lint/gll.py:84-107 | The resolution rules determine the resulting dictionary completely: two dictionaries that both obey them are equal. |
| `Resolver.ResolutionIsStable` | src/gitlab_lint/gll.py:84-107 | Resolving an already resolved dictionary in the same environment leaves it unchanged. |
| `Request.BindParameters` | src/gitlab_lint/gll.py:111-115 | `get_validation_data(**kwargs)` binds exactly when the dictionary's keys are the six parameter names, each parameter taking its key's value. Otherwise there is no binding. |
| `Gll.ResolutionKeepsParameterNames` | src/gitlab_lint/gll.py:84-111 | Resolution never adds or removes a key when the dictionary already holds exactly the six parameter names, so the dictionary Click produces always binds at the call. |
| `Request.QueryParametersUnique` | src/gitlab_lint/gll.py:126-134 | The query-parameter rules fix the map completely: `private_token` is present iff the token is truthy, `ref` iff the reference is truthy, and `dry_run = "true"` iff `ref` is present. No other key appears. |
| `Request.Endpoint` | src/gitlab_lint/gll.py:135-140 | The URL is `https://{domain}/api/v4/ci/lint` when the project is falsy, and `https://{domain}/api/v4/projects/{project}/ci/lint` otherwise. |
| `Request.EndpointDeterminesProject` | src/gitlab_lint/gll.py:135-140 | For one domain, a project-scoped endpoint is never the global one. Two project-scoped endpoints are equal only when the projects render identically. |
| `Request.BuildRequest` | src/gitlab_lint/gll.py:126-144 | The request has the endpoint URL and the file text as content. Its query parameters obey the query-parameter rules. TLS verification is on exactly when `insecure` is falsy. |
| `Request.CheckResponse` | src/gitlab_lint/gll.py:146-153 | A response is accepted exactly when its status is 200, and then yields its decoded body. Any other status is an error whose message starts with the fixed prefix and then carries the raw body text. |
| `Verdict.ErrorMessagesOfRecords` | src/gitlab_lint/gll.py:175-176 | The error-level records emitted for a list of errors give back exactly that list, in order. |
| `Verdict.ResolveExitCode` | src/gitlab_lint/gll.py:157-180 | The code is 0 or 1. If `valid` is present, it alone decides (true gives 0). Otherwise, if `status` is present, the code is 0 exactly when it equals `"valid"`. With neither key the code is 1. The first log record is the valid or invalid info line. The error records are exactly `errors`, in order, when the code is 1, and there are none when it is 0. |
| `Verdict.ResolveExitCodeExamples` | tests/gll_test.py:4-33 | The four test responses give the codes the tests expect. The failing `status` response logs its error message. |
| `Gll.Run` | src/gitlab_lint/gll.py:84-112 | The resolved dictionary obeys the resolution rules. A binding failure ends the run, and it never happens when the incoming dictionary holds exactly the six parameter names. Otherwise the request sent is the one built from the bound parameters and the file's text. A non-200 answer ends in the API error. A 200 answer ends in `ResolveExitCode` of its body. The exit code is 0 or 1, and it is 0 only after a 200 answer whose verdict is true. |

## Left out

- The HTTP POST, TLS handling and JSON decoding (`requests.post`, `response.json()`): network I/O in a third-party library. The server's answer is the `server` parameter of `Gll.Run`, already decoded into a `LintResponse`.
- Reading the configuration file: filesystem I/O. It is the `readFile` parameter. Click's path-exists check and a failing `open` are not modelled.
- Hostname validation of `--domain` (`validate_domain`): it delegates to the third-party `fqdn` package and runs inside Click before `gll` starts.
- Suppressing urllib3's insecure-request warning: a library side effect. Only the `verify` flag it accompanies is modelled.
- Logging configuration, the `sys.excepthook` override, the removal of `verbose` from the dictionary, and `sys.exit`: process plumbing. The model starts from the dictionary without `verbose` and returns the exit code instead of exiting.
- Click's option declarations and the `GLL_` environment prefix: framework behaviour before `gll` runs.
- Debug log lines that echo parameters: only the info and error records of the verdict are modelled.
- `Verdict.ResolveExitCode`: a response is modelled with a `status` string, a `valid` boolean and an `errors` list. Other JSON types under those keys, and the `KeyError` raised when an invalid response has no `errors`, are not modelled.

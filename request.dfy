/**
 * The lint request client (`get_validation_data`): the query parameters, the
 * endpoint URL, TLS verification and the rule that any status other than 200
 * is an API error. The POST itself, reading the file and decoding the JSON
 * body happen outside this module.
 */
module Request {
  import opened Wrappers
  import opened Values
  import opened Verdict

  /** The keyword arguments `get_validation_data` takes, bound from the resolved dictionary. */
  datatype LintParameters = LintParameters(
    file: Value, domain: Value, project: Value, token: Value, insecure: Value, reference: Value)

  /** The POST the client issues: URL, query parameters, the file text as `content`, and TLS verification. */
  datatype LintRequest = LintRequest(url: string, params: map<string, Value>, content: string, verify: bool)

  /** What the server answers: status code, raw body, and the body decoded as a lint response. */
  datatype HttpResponse = HttpResponse(statusCode: int, text: string, data: LintResponse)

  const ParameterNames: set<string> := {"file", "domain", "project", "token", "insecure", "reference"}

  const ApiErrorPrefix: string := "API endpoint returned invalid response: \n "
  const ApiErrorSuffix: string :=
    " \nconfirm your `domain`, `project`, and `token` have been set correctly"

  /**
   * `get_validation_data(**kwargs)`: the call binds exactly when the
   * dictionary holds the six parameter names and nothing else; otherwise
   * Python raises a `TypeError`.
   */
  function BindParameters(kwargs: map<string, Value>): (p: Option<LintParameters>)
    ensures p.Some? <==> kwargs.Keys == ParameterNames
    ensures p.Some? ==> (p.value.file == kwargs["file"] && p.value.domain == kwargs["domain"]
                         && p.value.project == kwargs["project"] && p.value.token == kwargs["token"]
                         && p.value.insecure == kwargs["insecure"] && p.value.reference == kwargs["reference"])
  {
    if kwargs.Keys == ParameterNames then
      Some(LintParameters(kwargs["file"], kwargs["domain"], kwargs["project"],
                          kwargs["token"], kwargs["insecure"], kwargs["reference"]))
    else
      None
  }

  /**
   * The query parameters for a token and a reference: `private_token` exactly
   * when the token is truthy, `ref` exactly when the reference is truthy,
   * `dry_run` set to "true" exactly when `ref` is there, and no other key.
   */
  predicate QueryParametersFor(token: Value, reference: Value, params: map<string, Value>) {
    && ("private_token" in params <==> Truthy(token))
    && ("private_token" in params ==> params["private_token"] == token)
    && ("ref" in params <==> Truthy(reference))
    && ("ref" in params ==> params["ref"] == reference)
    && ("dry_run" in params <==> "ref" in params)
    && ("dry_run" in params ==> params["dry_run"] == Str("true"))
    && params.Keys <= {"private_token", "ref", "dry_run"}
  }

  /** The query parameters are fully determined by the token and the reference. */
  lemma QueryParametersUnique(token: Value, reference: Value, p1: map<string, Value>, p2: map<string, Value>)
    requires QueryParametersFor(token, reference, p1) && QueryParametersFor(token, reference, p2)
    ensures p1 == p2
  {
  }

  /** `f"projects/{project}/" if project else ""`. */
  function ProjectSegment(project: Value): string {
    if Truthy(project) then "projects/" + Render(project) + "/" else ""
  }

  /** The endpoint `https://{domain}/api/v4/{project_id}ci/lint`. */
  function Endpoint(domain: Value, project: Value): (url: string)
    ensures !Truthy(project) ==> url == "https://" + Render(domain) + "/api/v4/ci/lint"
    ensures Truthy(project) ==> url == "https://" + Render(domain) + "/api/v4/projects/" + Render(project) + "/ci/lint"
  {
    "https://" + Render(domain) + "/api/v4/" + ProjectSegment(project) + "ci/lint"
  }

  lemma MiddleOf(a: string, x: string, b: string)
    ensures (a + x + b)[|a|..|a| + |x|] == x
  {
  }

  /**
   * For one domain, the endpoint tells the two API modes apart and names the
   * project: a project-scoped endpoint is never the global one, and two
   * project-scoped endpoints agree only for projects rendered the same way.
   */
  lemma {:induction false} EndpointDeterminesProject(domain: Value, p: Value, q: Value)
    requires Truthy(p)
    requires Endpoint(domain, p) == Endpoint(domain, q)
    ensures Truthy(q) && Render(p) == Render(q)
  {
    var prefix := "https://" + Render(domain) + "/api/v4/projects/";
    assert Endpoint(domain, p) == prefix + Render(p) + "/ci/lint";
    // the global endpoint is shorter than any project-scoped one
    assert |Endpoint(domain, p)| > |"https://" + Render(domain) + "/api/v4/ci/lint"|;
    assert Endpoint(domain, q) == prefix + Render(q) + "/ci/lint";
    MiddleOf(prefix, Render(p), "/ci/lint");
    MiddleOf(prefix, Render(q), "/ci/lint");
  }

  /** What `get_validation_data` sends for the bound parameters and the file's text. */
  predicate RequestFor(p: LintParameters, content: string, request: LintRequest) {
    && request.url == Endpoint(p.domain, p.project)
    && QueryParametersFor(p.token, p.reference, request.params)
    && request.content == content
    && request.verify == !Truthy(p.insecure)
  }

  /** Builds the request the way `get_validation_data` does, updating `params` step by step. */
  method BuildRequest(p: LintParameters, content: string) returns (request: LintRequest)
    ensures RequestFor(p, content, request)
  {
    var params: map<string, Value> := map[];
    if Truthy(p.token) {
      params := params["private_token" := p.token];
    }
    if Truthy(p.reference) {
      params := params["ref" := p.reference];
      params := params["dry_run" := Str("true")];  // the API ignores `ref` without it
    }
    var projectId := if Truthy(p.project) then "projects/" + Render(p.project) + "/" else "";
    var url := "https://" + Render(p.domain) + "/api/v4/" + projectId + "ci/lint";
    request := LintRequest(url, params, content, !Truthy(p.insecure));
  }

  /**
   * The status check after the POST: a 200 response yields its decoded body;
   * any other status is an API error whose message carries the raw body.
   */
  function CheckResponse(response: HttpResponse): (r: Result<LintResponse, string>)
    ensures r.Ok? <==> response.statusCode == 200
    ensures r.Ok? ==> r.value == response.data
    ensures r.Err? ==> (|ApiErrorPrefix| + |response.text| <= |r.error|
                        && r.error[..|ApiErrorPrefix|] == ApiErrorPrefix
                        && r.error[|ApiErrorPrefix|..|ApiErrorPrefix| + |response.text|] == response.text)
  {
    if response.statusCode != 200 then
      MiddleOf(ApiErrorPrefix, response.text, ApiErrorSuffix);
      Err(ApiErrorPrefix + response.text + ApiErrorSuffix)
    else
      Ok(response.data)
  }
}

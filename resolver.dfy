/**
 * Configuration resolution in `gll`: explicit options are merged with the
 * variables a GitLab CI job exports. Each of token, reference, project and
 * file that is falsy takes the value of its CI variable when that variable is
 * set and not empty; the domain takes `CI_SERVER_HOST` only while it still
 * equals the built-in default.
 */
module Resolver {
  import opened Values

  const DefaultDomain: string := "gitlab.com"
  const ServerHostVariable: string := "CI_SERVER_HOST"
  const DomainArgument: string := "domain"

  /** Each argument that falls back to a CI variable, in the order they are visited. */
  const ArgumentMapping: seq<(string, string)> := [
    ("token", "GITLAB_PRIVATE_TOKEN"),
    ("reference", "CI_COMMIT_REF_NAME"),
    ("project", "CI_PROJECT_ID"),
    ("file", "CI_CONFIG_PATH")
  ]

  predicate IsMappedArgument(key: string) {
    exists i :: 0 <= i < |ArgumentMapping| && ArgumentMapping[i].0 == key
  }

  /**
   * The fallback rule for one mapped argument: a falsy explicit value whose
   * variable is set is replaced by the variable's value; anything else keeps
   * its entry, present or absent, exactly as it was.
   */
  predicate FallbackRule(kwargs: map<string, Value>, env: map<string, string>,
                         resolved: map<string, Value>, name: string, variable: string)
  {
    if !Truthy(Get(kwargs, name)) && EnvSet(env, variable) then
      name in resolved && resolved[name] == Str(env[variable])
    else
      SameEntry(kwargs, resolved, name)
  }

  /**
   * The domain rule: the domain becomes `CI_SERVER_HOST` exactly when it is
   * still the default and the variable is set. A domain other than
   * `gitlab.com` is never overridden; an explicit `gitlab.com` cannot be told
   * apart from the default and is replaced like it.
   */
  predicate DomainRule(kwargs: map<string, Value>, env: map<string, string>, resolved: map<string, Value>) {
    if Get(kwargs, DomainArgument) == Str(DefaultDomain) && EnvSet(env, ServerHostVariable) then
      DomainArgument in resolved && resolved[DomainArgument] == Str(env[ServerHostVariable])
    else
      SameEntry(kwargs, resolved, DomainArgument)
  }

  /** `resolved` is what the option dictionary `kwargs` becomes under `env`. */
  ghost predicate Resolved(kwargs: map<string, Value>, env: map<string, string>, resolved: map<string, Value>) {
    && (forall i :: 0 <= i < |ArgumentMapping| ==>
          FallbackRule(kwargs, env, resolved, ArgumentMapping[i].0, ArgumentMapping[i].1))
    && DomainRule(kwargs, env, resolved)
    && (forall key :: key != DomainArgument && !IsMappedArgument(key) ==> SameEntry(kwargs, resolved, key))
  }

  lemma MappingNamesDistinct()
    ensures forall i, j :: 0 <= i < |ArgumentMapping| && 0 <= j < |ArgumentMapping| && i != j ==>
              ArgumentMapping[i].0 != ArgumentMapping[j].0
    ensures !IsMappedArgument(DomainArgument)
  {
  }

  /**
   * The body of `gll` between reading the options and calling the API: the
   * fallback loop over the argument mapping, then the domain special case.
   */
  method ResolveParameters(kwargs: map<string, Value>, env: map<string, string>)
    returns (resolved: map<string, Value>)
    ensures Resolved(kwargs, env, resolved)
  {
    MappingNamesDistinct();
    resolved := kwargs;
    for i := 0 to |ArgumentMapping|
      invariant forall j :: 0 <= j < i ==>
                  FallbackRule(kwargs, env, resolved, ArgumentMapping[j].0, ArgumentMapping[j].1)
      invariant forall j :: i <= j < |ArgumentMapping| ==> SameEntry(kwargs, resolved, ArgumentMapping[j].0)
      invariant forall key :: !IsMappedArgument(key) ==> SameEntry(kwargs, resolved, key)
    {
      var (name, variable) := ArgumentMapping[i];
      if !Truthy(Get(resolved, name)) && EnvSet(env, variable) {
        resolved := resolved[name := Str(env[variable])];
      }
    }
    if Get(resolved, DomainArgument) == Str(DefaultDomain) && EnvSet(env, ServerHostVariable) {
      resolved := resolved[DomainArgument := Str(env[ServerHostVariable])];
    }
  }

  /** The rules determine the resolved dictionary completely: no other key or value is possible. */
  lemma ResolvedIsUnique(kwargs: map<string, Value>, env: map<string, string>,
                         r1: map<string, Value>, r2: map<string, Value>)
    requires Resolved(kwargs, env, r1) && Resolved(kwargs, env, r2)
    ensures r1 == r2
  {
    forall key
      ensures SameEntry(r1, r2, key)
    {
      if key == DomainArgument {
      } else if IsMappedArgument(key) {
        var i :| 0 <= i < |ArgumentMapping| && ArgumentMapping[i].0 == key;
        assert FallbackRule(kwargs, env, r1, ArgumentMapping[i].0, ArgumentMapping[i].1);
        assert FallbackRule(kwargs, env, r2, ArgumentMapping[i].0, ArgumentMapping[i].1);
      } else {
        assert SameEntry(kwargs, r1, key) && SameEntry(kwargs, r2, key);
      }
    }
    assert r1.Keys == r2.Keys by {
      forall key ensures key in r1 <==> key in r2 {
        assert SameEntry(r1, r2, key);
      }
    }
    forall key | key in r1 ensures r1[key] == r2[key] {
      assert SameEntry(r1, r2, key);
    }
  }

  /**
   * Resolution is stable: resolving an already resolved dictionary in the
   * same environment changes nothing.
   */
  lemma ResolutionIsStable(kwargs: map<string, Value>, env: map<string, string>,
                           resolved: map<string, Value>, again: map<string, Value>)
    requires Resolved(kwargs, env, resolved)
    requires Resolved(resolved, env, again)
    ensures again == resolved
  {
    forall i | 0 <= i < |ArgumentMapping|
      ensures FallbackRule(resolved, env, resolved, ArgumentMapping[i].0, ArgumentMapping[i].1)
    {
      assert FallbackRule(kwargs, env, resolved, ArgumentMapping[i].0, ArgumentMapping[i].1);
    }
    assert DomainRule(resolved, env, resolved);
    ResolvedIsUnique(resolved, env, resolved, again);
  }
}

/** ConcourseEnvExpander.expand: before expanding a message, the process
    environment gets a synthetic BUILD_URL, the expansion of a fixed template
    made from the Concourse build metadata variables. */
module ConcourseEnv {
  import opened Outcomes
  import opened ResourceData
  import opened EnvExpansion

  const AtcExternalUrl := "ATC_EXTERNAL_URL"
  const BuildTeamName := "BUILD_TEAM_NAME"
  const BuildPipelineName := "BUILD_PIPELINE_NAME"
  const BuildJobName := "BUILD_JOB_NAME"
  const BuildName := "BUILD_NAME"
  const BuildUrl := "BUILD_URL"

  /** BUILD_URL_TEMPLATE: the external URL, then /teams/, /pipelines/, /jobs/
      and /builds/ each followed by the braced reference to the matching
      variable. */
  const BuildUrlTemplate: string :=
    Braced(AtcExternalUrl) + ("/teams/" + (Braced(BuildTeamName) +
    ("/pipelines/" + (Braced(BuildPipelineName) + ("/jobs/" + (Braced(BuildJobName) +
    ("/builds/" + Braced(BuildName))))))))

  /** The six variable names involved are all names of the pattern. */
  lemma MetadataNames()
    ensures IsName(AtcExternalUrl) && IsName(BuildTeamName) && IsName(BuildPipelineName)
    ensures IsName(BuildJobName) && IsName(BuildName) && IsName(BuildUrl)
  {
  }

  /** Two braced references, each followed by literal text without `$`. */
  lemma ExpandTwoSegments(a: string, l1: string, b: string, l2: string, rest: string, env: Env)
    requires IsName(a) && IsName(b) && '$' !in l1 && '$' !in l2
    ensures Expand(Braced(a) + (l1 + (Braced(b) + (l2 + rest))), env)
         == Replacement(env, Token(a, true)) +
            (l1 + (Replacement(env, Token(b, true)) + (l2 + Expand(rest, env))))
  {
    ExpandBraced(b, l2 + rest, env);
    ExpandLiteralPrefix(l2, rest, env);
    ExpandBraced(a, l1 + (Braced(b) + (l2 + rest)), env);
    ExpandLiteralPrefix(l1, Braced(b) + (l2 + rest), env);
  }

  /** The shape of the template for any five names and four separators. */
  lemma ExpandFiveReferences(a: string, l1: string, b: string, l2: string, c: string,
                             l3: string, d: string, l4: string, e: string, env: Env)
    requires IsName(a) && IsName(b) && IsName(c) && IsName(d) && IsName(e)
    requires '$' !in l1 && '$' !in l2 && '$' !in l3 && '$' !in l4
    ensures Expand(Braced(a) + (l1 + (Braced(b) + (l2 + (Braced(c) + (l3 + (Braced(d) +
                   (l4 + Braced(e)))))))), env)
         == Replacement(env, Token(a, true)) + (l1 + (Replacement(env, Token(b, true)) +
            (l2 + (Replacement(env, Token(c, true)) + (l3 + (Replacement(env, Token(d, true)) +
            (l4 + Replacement(env, Token(e, true)))))))))
  {
    ExpandLastBraced(e, env);
    ExpandTwoSegments(c, l3, d, l4, Braced(e), env);
    ExpandTwoSegments(a, l1, b, l2, Braced(c) + (l3 + (Braced(d) + (l4 + Braced(e)))), env);
  }

  /** The expansion of the template, piece by piece: every set variable is
      replaced by its value, every unset one stays as `${NAME}`. */
  lemma ExpandTemplate(env: Env)
    ensures Expand(BuildUrlTemplate, env)
         == Replacement(env, Token(AtcExternalUrl, true)) + ("/teams/" +
            (Replacement(env, Token(BuildTeamName, true)) + ("/pipelines/" +
            (Replacement(env, Token(BuildPipelineName, true)) + ("/jobs/" +
            (Replacement(env, Token(BuildJobName, true)) + ("/builds/" +
            Replacement(env, Token(BuildName, true)))))))))
  {
    MetadataNames();
    assert '$' !in "/teams/" && '$' !in "/pipelines/" && '$' !in "/jobs/" && '$' !in "/builds/";
    ExpandFiveReferences(AtcExternalUrl, "/teams/", BuildTeamName, "/pipelines/", BuildPipelineName,
                         "/jobs/", BuildJobName, "/builds/", BuildName, env);
  }

  /** The environment after `ENV["BUILD_URL"] = EnvExpander.expand(BUILD_URL_TEMPLATE)`. */
  function WithBuildUrl(env: Env): Env {
    env[BuildUrl := Expand(BuildUrlTemplate, env)]
  }

  /** With the five metadata variables set, BUILD_URL is
      <external url>/teams/<team>/pipelines/<pipeline>/jobs/<job>/builds/<name>;
      no other variable changes. */
  lemma BuildUrlComposed(env: Env)
    requires AtcExternalUrl in env && BuildTeamName in env && BuildPipelineName in env
    requires BuildJobName in env && BuildName in env
    ensures WithBuildUrl(env)[BuildUrl]
         == env[AtcExternalUrl] + ("/teams/" + (env[BuildTeamName] + ("/pipelines/" +
            (env[BuildPipelineName] + ("/jobs/" + (env[BuildJobName] + ("/builds/" + env[BuildName])))))))
    ensures WithBuildUrl(env).Keys == env.Keys + {BuildUrl}
    ensures forall n :: n in env && n != BuildUrl ==> WithBuildUrl(env)[n] == env[n]
  {
    ExpandTemplate(env);
  }

  /** Whatever BUILD_URL held before is overwritten: the synthetic value
      depends only on the five metadata variables, so a second write gives
      the same environment. */
  lemma BuildUrlRecomputed(env: Env, stale: string)
    ensures WithBuildUrl(env[BuildUrl := stale]) == WithBuildUrl(env)
    ensures WithBuildUrl(WithBuildUrl(env)) == WithBuildUrl(env)
  {
    TemplateIgnoresBuildUrl(env, stale);
    TemplateIgnoresBuildUrl(env, Expand(BuildUrlTemplate, env));
  }

  /** The template does not read BUILD_URL itself. */
  lemma TemplateIgnoresBuildUrl(env: Env, x: string)
    ensures Expand(BuildUrlTemplate, env[BuildUrl := x]) == Expand(BuildUrlTemplate, env)
  {
    var env' := env[BuildUrl := x];
    ExpandTemplate(env);
    ExpandTemplate(env');
    assert BuildUrl != AtcExternalUrl && BuildUrl != BuildTeamName && BuildUrl != BuildPipelineName;
    assert BuildUrl != BuildJobName && BuildUrl != BuildName;
    assert Replacement(env', Token(AtcExternalUrl, true)) == Replacement(env, Token(AtcExternalUrl, true));
    assert Replacement(env', Token(BuildTeamName, true)) == Replacement(env, Token(BuildTeamName, true));
    assert Replacement(env', Token(BuildPipelineName, true))
        == Replacement(env, Token(BuildPipelineName, true));
    assert Replacement(env', Token(BuildJobName, true)) == Replacement(env, Token(BuildJobName, true));
    assert Replacement(env', Token(BuildName, true)) == Replacement(env, Token(BuildName, true));
  }

  /** The unit-test message "foo $BUILD_URL bar": the reference resolves to the
      freshly composed URL. */
  lemma ExpandBuildUrlReference(env: Env)
    ensures Expand("foo " + (Bare(BuildUrl) + " bar"), WithBuildUrl(env))
         == "foo " + (Expand(BuildUrlTemplate, env) + " bar")
  {
    var env' := WithBuildUrl(env);
    MetadataNames();
    ExpandNoDollar(" bar", env');
    ExpandAround("foo ", Token(BuildUrl, false), " bar", env');
  }

  /** The process environment, which ConcourseEnvExpander.expand writes to. */
  class ProcessEnv {
    var vars: Env

    constructor (vars: Env)
      ensures this.vars == vars
    {
      this.vars := vars;
    }

    /** ConcourseEnvExpander.expand: publish BUILD_URL, then expand `message`
        against the updated environment. The write happens first, so it
        also happens when `message` turns out not to be a String. */
    method ExpandConcourse(message: Value) returns (r: Result<string>)
      modifies this
      ensures vars == WithBuildUrl(old(vars))
      ensures r == ExpandValue(message, vars)
    {
      vars := vars[BuildUrl := Expand(BuildUrlTemplate, vars)];
      r := ExpandValue(message, vars);
    }
  }
}

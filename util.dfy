/**
 * Shared helpers and shared steps (src/pds/roundup/util.py): environment
 * defaulting, the null step and the changelog step.
 */
module Util {
  import opened Wrappers
  import opened Strings
  import opened Commands
  import opened Errors
  import opened World
  import opened Steps

  /**
   * The environment `populateEnvVars` returns: a copy of `env` whose PyPI username
   * and password are kept when present (even when empty) and defaulted otherwise.
   */
  function Populated(env: Environ): (r: Environ)
    ensures r.Keys == env.Keys + {"pypi_username", "pypi_password"}
    ensures r["pypi_username"] == if "pypi_username" in env then env["pypi_username"] else "pypi"
    ensures r["pypi_password"] == if "pypi_password" in env then env["pypi_password"] else "secret"
    ensures forall k :: k in env && k != "pypi_username" && k != "pypi_password" ==> r[k] == env[k]
  {
    var username := if "pypi_username" in env then env["pypi_username"] else "pypi";
    var password := if "pypi_password" in env then env["pypi_password"] else "secret";
    env["pypi_username" := username]["pypi_password" := password]
  }

  /** The variables whose absence `populateEnvVars` warns about, in the order it checks them. */
  const GitHubVars: seq<string> := ["GITHUB_TOKEN", "GITHUB_REPOSITORY"]

  /** The variables of `vars` that are missing from `env`, in order. */
  function Missing(env: Environ, vars: seq<string>): (r: seq<string>)
    ensures forall v :: v in r <==> v in vars && v !in env
    ensures |r| <= |vars|
  {
    if vars == [] then []
    else Missing(env, vars[..|vars| - 1]) + (if vars[|vars| - 1] in env then [] else [vars[|vars| - 1]])
  }

  /**
   * `populateEnvVars(env)`: copy the map, default the two PyPI keys, and warn
   * (here: report) each GitHub variable that is missing. The argument is a value,
   * so it is left unmodified; the warnings do not influence the result.
   */
  method PopulateEnvVars(env: Environ) returns (copy: Environ, warnings: seq<string>)
    ensures copy == Populated(env)
    ensures warnings == Missing(env, GitHubVars)
  {
    copy := env;
    var username := if "pypi_username" in copy then copy["pypi_username"] else "pypi";
    var password := if "pypi_password" in copy then copy["pypi_password"] else "secret";
    copy := copy["pypi_username" := username];
    copy := copy["pypi_password" := password];
    warnings := [];
    for i := 0 to |GitHubVars|
      invariant warnings == Missing(env, GitHubVars[..i])
    {
      assert GitHubVars[..i + 1][..i] == GitHubVars[..i];
      if GitHubVars[i] !in env {
        warnings := warnings + [GitHubVars[i]];
      }
    }
    assert GitHubVars[..|GitHubVars|] == GitHubVars;
  }

  /** A missing GitHub variable changes only the warnings, never the returned environment. */
  lemma GitHubVarsDoNotAffectResult(env: Environ, v: string, value: string)
    requires v in GitHubVars && v !in env
    ensures Populated(env[v := value]) == Populated(env)[v := value]
  {
  }

  /** `NullStep.execute`: nothing happens. */
  function ExecuteNull(st: State): (e: Effect)
    ensures e == Effect(st, Pass)
  {
    Effect(st, Pass)
  }

  /** The `--configure-sections` argument of the changelog generator. */
  const ChangeLogSections: string :=
    "{\"improvements\":{\"prefix\":\"**Improvements:**\",\"labels\":[\"Epic\"]},"
    + "\"defects\":{\"prefix\":\"**Defects:**\",\"labels\":[\"bug\"]},"
    + "\"deprecations\":{\"prefix\":\"**Deprecations:**\",\"labels\":[\"deprecation\"]}}"

  /** The changelog generator's argument vector. */
  function ChangeLogArgv(repo: string, token: string): (argv: seq<string>)
    ensures |argv| == 16 && argv[0] == "github_changelog_generator"
    ensures argv[3] == "--project" && argv[4] == repo
    ensures argv[5] == "--output" && argv[6] == "CHANGELOG.md"
    ensures argv[7] == "--token" && argv[8] == token
  {
    ["github_changelog_generator", "--user", "--NASA-PDS", "--project", repo,
     "--output", "CHANGELOG.md", "--token", token,
     "--configure-sections", ChangeLogSections, "--no-pull-requests",
     "--issues-label", "**Other closed issues:**", "--issue-line-labels", "high,low,medium"]
  }

  /**
   * `ChangeLogStep.execute`: without an administrative token it returns at once;
   * otherwise the project is component 1 of GITHUB_REPOSITORY split on '/', and the
   * changelog generator is run once.
   */
  function ExecuteChangeLog(environ: Environ, h: Host, st: State): (e: Effect)
    ensures e.state.packageJson == st.packageJson
    ensures !Truthy(Get(environ, "ADMIN_GITHUB_TOKEN")) ==> e == Effect(st, Pass)
    ensures Truthy(Get(environ, "ADMIN_GITHUB_TOKEN")) && "GITHUB_REPOSITORY" !in environ ==>
              e == Effect(st, Fail(AttributeError))
    ensures Truthy(Get(environ, "ADMIN_GITHUB_TOKEN")) && "GITHUB_REPOSITORY" in environ ==>
              ('/' !in environ["GITHUB_REPOSITORY"] ==> e == Effect(st, Fail(IndexError)))
    ensures Truthy(Get(environ, "ADMIN_GITHUB_TOKEN")) && "GITHUB_REPOSITORY" in environ
            && SplitField1(environ["GITHUB_REPOSITORY"], '/').Some? ==>
              e == Run(h, st, Exec(ChangeLogArgv(SplitField1(environ["GITHUB_REPOSITORY"], '/').value,
                                                 environ["ADMIN_GITHUB_TOKEN"])))
  {
    var token := Get(environ, "ADMIN_GITHUB_TOKEN");
    if !Truthy(token) then Effect(st, Pass)
    else match Get(environ, "GITHUB_REPOSITORY")
      case None => Effect(st, Fail(AttributeError))
      case Some(full) =>
        match SplitField1(full, '/')
        case None => Effect(st, Fail(IndexError))
        case Some(repo) => Run(h, st, Exec(ChangeLogArgv(repo, token.value)))
  }

  /** For a token and an "owner/repo" value, the generator is run for `repo` with that token. */
  lemma ChangeLogRunsForRepository(environ: Environ, owner: string, repo: string, h: Host, st: State)
    requires Truthy(Get(environ, "ADMIN_GITHUB_TOKEN"))
    requires '/' !in owner && '/' !in repo
    requires Get(environ, "GITHUB_REPOSITORY") == Some(owner + "/" + repo)
    ensures ExecuteChangeLog(environ, h, st).state.trace
              == st.trace + [Exec(ChangeLogArgv(repo, environ["ADMIN_GITHUB_TOKEN"]))]
  {
    SplitOwnerRepo(owner, repo, []);
    assert owner + "/" + repo + [] == owner + "/" + repo;
  }

  /** `RequirementsStep.execute`, whose body is not modelled: one opaque action. */
  function ExecuteRequirements(h: Host, st: State): (e: Effect)
    ensures e == Run(h, st, Delegate("RequirementsStep"))
  {
    Run(h, st, Delegate("RequirementsStep"))
  }
}

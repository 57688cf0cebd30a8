/** The Python context's steps (src/pds/roundup/_python.py). */
module Python {
  import opened Wrappers
  import opened Strings
  import opened Commands
  import opened Errors
  import opened World
  import opened Steps
  import Util

  /** `PythonContext.steps`: every declared step name has a class. */
  function StepTable(): (t: map<StepName, StepClass>)
    ensures forall n :: n in t <==> IsMember(n)
    ensures Requirements in t && ChangeLog in t && Null in t
    ensures t[Requirements] == RequirementsStep && t[ChangeLog] == ChangeLogStep && t[Null] == NullStep
  {
    map[
      Null := NullStep,
      UnitTest := Python(PyUnitTest),
      IntegrationTest := Python(PyIntegrationTest),
      ChangeLog := ChangeLogStep,
      Requirements := RequirementsStep,
      Docs := Python(PyDocs),
      Build := Python(PyBuild),
      GitHubRelease := Python(PyGitHubRelease),
      ArtifactPublication := Python(PyArtifactPublication),
      DocPublication := Python(PyDocPublication)]
  }

  const ProductionIndex: string := "https://upload.pypi.org/legacy/"
  const TestIndex: string := "https://test.pypi.org/legacy/"

  /** `getCheeseshopURL`: the production index exactly for stable assemblies, the test index otherwise. */
  function CheeseshopURL(stable: bool): (url: string)
    ensures url == ProductionIndex <==> stable
    ensures url == TestIndex <==> !stable
  {
    if stable then ProductionIndex else TestIndex
  }

  /**
   * `getCheeseshopCredentials`: the PyPI username and password from the environment;
   * a missing or empty username is reported first, then a missing or empty password.
   */
  function CheeseshopCredentials(environ: Environ): (r: Result<(string, string), Error>)
    ensures r.Ok? <==> Truthy(Get(environ, "pypi_username")) && Truthy(Get(environ, "pypi_password"))
    ensures !Truthy(Get(environ, "pypi_username")) ==> r == Err(MissingEnvVarError("pypi_username"))
    ensures Truthy(Get(environ, "pypi_username")) && !Truthy(Get(environ, "pypi_password")) ==>
              r == Err(MissingEnvVarError("pypi_password"))
    ensures r.Ok? ==> r.value == (environ["pypi_username"], environ["pypi_password"])
  {
    var username, password := Get(environ, "pypi_username"), Get(environ, "pypi_password");
    if !Truthy(username) then Err(MissingEnvVarError("pypi_username"))
    else if !Truthy(password) then Err(MissingEnvVarError("pypi_password"))
    else Ok((username.value, password.value))
  }

  /** After environment defaulting, credentials fail only if a PyPI variable was present but empty. */
  lemma CredentialsAfterDefaulting(env: Environ)
    ensures CheeseshopCredentials(Util.Populated(env)).Ok? <==>
              Get(env, "pypi_username") != Some("") && Get(env, "pypi_password") != Some("")
    ensures "pypi_username" !in env && "pypi_password" !in env ==>
              CheeseshopCredentials(Util.Populated(env)) == Ok(("pypi", "secret"))
  {
    var p := Util.Populated(env);
    assert Get(p, "pypi_username") == Some(p["pypi_username"]);
    assert Get(p, "pypi_password") == Some(p["pypi_password"]);
  }

  /** The paths under `dir` of the listed names that are regular files, in listing order. */
  function RegularFiles(h: Host, dir: string, names: seq<string>): (paths: seq<string>)
    ensures |paths| <= |names|
    ensures forall p :: p in paths <==> exists n :: n in names && h.isFile(Join(dir, n)) && p == Join(dir, n)
  {
    if names == [] then []
    else
      var n := names[|names| - 1];
      var front := names[..|names| - 1];
      assert forall m :: m in names <==> m in front || m == n;
      RegularFiles(h, dir, front) + (if h.isFile(Join(dir, n)) then [Join(dir, n)] else [])
  }

  /** Filtering a listing keeps its order: the files of a split listing are the files of its parts, concatenated. */
  lemma {:induction false} RegularFilesAppend(h: Host, dir: string, x: seq<string>, y: seq<string>)
    ensures RegularFiles(h, dir, x + y) == RegularFiles(h, dir, x) + RegularFiles(h, dir, y)
    decreases |y|
  {
    if y == [] {
      assert x + y == x;
    } else {
      var y0 := y[..|y| - 1];
      assert (x + y)[..|x + y| - 1] == x + y0;
      RegularFilesAppend(h, dir, x, y0);
    }
  }

  /** The files of `cwd`/dist that twine uploads. */
  function DistFiles(h: Host, cwd: string): seq<string> {
    var dists := Join(cwd, "dist");
    RegularFiles(h, dists, h.listDir(dists))
  }

  /** The twine command line: credentials, repository URL, then the files to upload. */
  function TwineArgv(username: string, password: string, url: string, files: seq<string>): (argv: seq<string>)
    ensures |argv| == 13 + |files|
    ensures argv[0] == "twine" && argv[1] == "upload"
    ensures argv[2] == "--username" && argv[3] == username
    ensures argv[4] == "--password" && argv[5] == password
    ensures argv[11] == "--repository-url" && argv[12] == url
    ensures argv[13..] == files
  {
    ["twine", "upload", "--username", username, "--password", password,
     "--non-interactive", "--comment",
     "\U{1f920} Yee-haw! This here ar-tee-fact got done uploaded by the Roundup!",
     "--skip-existing", "--disable-progress-bar", "--repository-url", url] + files
  }

  /**
   * `_ArtifactPublicationStep.execute`: with credentials, upload every regular file
   * of dist to the index chosen by stability; without them, raise before running anything.
   */
  function ExecuteArtifactPublication(stable: bool, cwd: string, environ: Environ, h: Host, st: State): (e: Effect)
    ensures e.state.packageJson == st.packageJson
    ensures CheeseshopCredentials(environ).Err? ==>
              e == Effect(st, Fail(CheeseshopCredentials(environ).error))
    ensures CheeseshopCredentials(environ).Ok? ==>
              var (username, password) := CheeseshopCredentials(environ).value;
              e == Run(h, st, Exec(TwineArgv(username, password, CheeseshopURL(stable), DistFiles(h, cwd))))
  {
    match CheeseshopCredentials(environ)
    case Err(err) => Effect(st, Fail(err))
    case Ok((username, password)) =>
      Run(h, st, Exec(TwineArgv(username, password, CheeseshopURL(stable), DistFiles(h, cwd))))
  }

  const FetchTags: Command := Exec(["git", "fetch", "--prune", "--unshallow", "--tags"])
  const ListDevTags: Command := Exec(["git", "tag", "--list", "*dev*"])

  function SnapshotRelease(token: string): Command {
    Exec(["python-snapshot-release", "--token", token])
  }

  /**
   * `_GitHubReleaseStep.execute`: without an administrative token nothing is run;
   * otherwise fetch tags and list the dev tags. `exec` returns nothing, so the loop over
   * the listed tags raises `TypeError` and the snapshot release is never reached.
   */
  function ExecuteGitHubRelease(environ: Environ, h: Host, st: State): (e: Effect)
    ensures e.state.packageJson == st.packageJson
    ensures !Truthy(GetToken(environ)) ==> e == Effect(st, Pass)
    ensures Truthy(GetToken(environ)) ==>
              && e.outcome.Fail?
              && st.trace <= e.state.trace <= st.trace + [FetchTags, ListDevTags]
              && SnapshotRelease(GetToken(environ).value) !in e.state.trace[|st.trace|..]
    ensures Truthy(GetToken(environ)) && h.shell(st.trace, FetchTags).Failed? ==>
              e == Effect(st.(trace := st.trace + [FetchTags]), Fail(ProcessError(FetchTags)))
    ensures Truthy(GetToken(environ)) && h.shell(st.trace, FetchTags).Done? ==>
              var st2 := st.(trace := st.trace + [FetchTags, ListDevTags]);
              && (h.shell(st.trace + [FetchTags], ListDevTags).Failed? ==> e == Effect(st2, Fail(ProcessError(ListDevTags))))
              && (h.shell(st.trace + [FetchTags], ListDevTags).Done? ==> e == Effect(st2, Fail(TypeError)))
  {
    var token := GetToken(environ);
    if !Truthy(token) then Effect(st, Pass)
    else
      var e1 := AndThen(h, Run(h, st, FetchTags), ListDevTags);
      assert e1.state.trace[|st.trace|..] <= [FetchTags, ListDevTags];
      if e1.outcome.Fail? then e1 else Effect(e1.state, Fail(TypeError))
  }

  const UnitTestCommand: Command := Exec(["python", "setup.py", "test"])
  const DocsCommand: Command := Exec(["sphinx-build", "-a", "-b", "html", "docs/source", "docs/build"])
  const BuildCommand: Command := Exec(["python", "setup.py", "bdist_wheel"])

  /** `execute` of each Python step class. */
  function Execute(c: PythonStep, stable: bool, cwd: string, environ: Environ, h: Host, st: State): (e: Effect)
    ensures c == PyIntegrationTest || c == PyDocPublication ==> e == Effect(st, Pass)
    ensures c == PyUnitTest ==> e == Run(h, st, UnitTestCommand)
    ensures c == PyDocs ==> e == Run(h, st, DocsCommand)
    ensures c == PyBuild ==> e == Run(h, st, BuildCommand)
    ensures c == PyGitHubRelease ==> e == ExecuteGitHubRelease(environ, h, st)
    ensures c == PyArtifactPublication ==> e == ExecuteArtifactPublication(stable, cwd, environ, h, st)
  {
    match c
    case PyUnitTest => Run(h, st, UnitTestCommand)
    case PyIntegrationTest => Effect(st, Pass)
    case PyDocs => Run(h, st, DocsCommand)
    case PyBuild => Run(h, st, BuildCommand)
    case PyGitHubRelease => ExecuteGitHubRelease(environ, h, st)
    case PyArtifactPublication => ExecuteArtifactPublication(stable, cwd, environ, h, st)
    case PyDocPublication => Effect(st, Pass)
  }

  /** Every Python step only appends to the trace and leaves package.json alone. */
  lemma ExecuteExtendsTrace(c: PythonStep, stable: bool, cwd: string, environ: Environ, h: Host, st: State)
    ensures var e := Execute(c, stable, cwd, environ, h, st);
            e.state.packageJson == st.packageJson && st.trace <= e.state.trace
  {
    match c
    case PyUnitTest =>
    case PyIntegrationTest =>
    case PyDocs =>
    case PyBuild =>
    case PyGitHubRelease =>
    case PyArtifactPublication =>
    case PyDocPublication =>
  }
}

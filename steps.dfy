/**
 * Step names and step classes (src/pds/roundup/step.py).
 *
 * A step is a unit of release work bound to the assembly that created it.
 * Python's dynamic dispatch over step classes becomes the tag `StepClass`;
 * what each class does lives with its ecosystem (modules Util, Python, Maven,
 * NodeJS) and is dispatched by module Assemblies.
 */
module Steps {
  import opened Wrappers
  import opened Errors
  import opened World

  /**
   * The abstract lifecycle phases. The first ten are the members the `StepName`
   * enumeration declares, in declaration order; the last four are named by the
   * Node.js step table but are not members of the declared enumeration.
   */
  datatype StepName =
    | Null | UnitTest | IntegrationTest | ChangeLog | Requirements
    | Docs | Build | GitHubRelease | ArtifactPublication | DocPublication
    | Preparation | VersionBump | VersionCommit | Cleanup

  /** The declared members, in declaration order. */
  function Members(): seq<StepName> {
    [Null, UnitTest, IntegrationTest, ChangeLog, Requirements,
     Docs, Build, GitHubRelease, ArtifactPublication, DocPublication]
  }

  predicate IsMember(n: StepName) {
    !(n.Preparation? || n.VersionBump? || n.VersionCommit? || n.Cleanup?)
  }

  /** A member's value, which is the same text as the member's name. */
  function Value(n: StepName): string {
    match n
    case Null => "null"
    case UnitTest => "unitTest"
    case IntegrationTest => "integrationTest"
    case ChangeLog => "changeLog"
    case Requirements => "requirements"
    case Docs => "docs"
    case Build => "build"
    case GitHubRelease => "githubRelease"
    case ArtifactPublication => "artifactPublication"
    case DocPublication => "docPublication"
    case Preparation => "preparation"
    case VersionBump => "versionBump"
    case VersionCommit => "versionCommit"
    case Cleanup => "cleanup"
  }

  /** `StepName(s)`: the declared member whose value is `s`; `None` where Python raises `ValueError`. */
  function FromValue(s: string): (r: Option<StepName>)
    ensures r.Some? ==> IsMember(r.value) && Value(r.value) == s
  {
    if s == "null" then Some(Null)
    else if s == "unitTest" then Some(UnitTest)
    else if s == "integrationTest" then Some(IntegrationTest)
    else if s == "changeLog" then Some(ChangeLog)
    else if s == "requirements" then Some(Requirements)
    else if s == "docs" then Some(Docs)
    else if s == "build" then Some(Build)
    else if s == "githubRelease" then Some(GitHubRelease)
    else if s == "artifactPublication" then Some(ArtifactPublication)
    else if s == "docPublication" then Some(DocPublication)
    else None
  }

  /** The enumeration has exactly ten members, `null` first and `docPublication` last, with distinct values. */
  lemma MembersAreTenDistinct()
    ensures |Members()| == 10 && Members()[0] == Null && Members()[9] == DocPublication
    ensures forall n :: n in Members() <==> IsMember(n)
    ensures forall i, j :: 0 <= i < j < |Members()| ==> Value(Members()[i]) != Value(Members()[j])
  {
  }

  /** Looking a member up by its value returns that member; the four extra names are not found. */
  lemma FromValueOfValue(n: StepName)
    ensures FromValue(Value(n)) == if IsMember(n) then Some(n) else None
  {
  }

  // ---------------------------------------------------------------------------
  // Step classes
  // ---------------------------------------------------------------------------

  datatype PythonStep =
    | PyUnitTest | PyIntegrationTest | PyDocs | PyBuild
    | PyGitHubRelease | PyArtifactPublication | PyDocPublication

  datatype MavenStep =
    | MvnUnitTest | MvnIntegrationTest | MvnChangeLog | MvnRequirements | MvnDocs
    | MvnBuild | MvnGitHubRelease | MvnArtifactPublication | MvnDocPublication

  datatype NodeStep =
    | NodePreparation | NodeUnitTest | NodeIntegrationTest | NodeDocs
    | NodeVersionBump | NodeVersionCommit | NodeBuild | NodeGitHubRelease
    | NodeArtifactPublication | NodeDocPublication | NodeCleanup | NodeChangeLog

  /** The class of a step: the abstract base, a shared class, or an ecosystem's own. */
  datatype StepClass =
    | BaseStep | NullStep | ChangeLogStep | RequirementsStep
    | Python(py: PythonStep) | Maven(mvn: MavenStep) | NodeJS(node: NodeStep)

  /** `self.__class__.__name__` of a step of class `c`. */
  function ClassName(c: StepClass): string {
    match c
    case BaseStep => "Step"
    case NullStep => "NullStep"
    case ChangeLogStep => "ChangeLogStep"
    case RequirementsStep => "RequirementsStep"
    case Python(p) => (
      match p
      case PyUnitTest => "_UnitTestStep"
      case PyIntegrationTest => "_IntegrationTestStep"
      case PyDocs => "_DocsStep"
      case PyBuild => "_BuildStep"
      case PyGitHubRelease => "_GitHubReleaseStep"
      case PyArtifactPublication => "_ArtifactPublicationStep"
      case PyDocPublication => "_DocPublicationStep")
    case Maven(m) => (
      match m
      case MvnUnitTest => "_UnitTestStep"
      case MvnIntegrationTest => "_IntegrationTestStep"
      case MvnChangeLog => "_ChangeLogStep"
      case MvnRequirements => "_RequirementsStep"
      case MvnDocs => "_DocsStep"
      case MvnBuild => "_BuildStep"
      case MvnGitHubRelease => "_GitHubReleaseStep"
      case MvnArtifactPublication => "_ArtifactPublicationStep"
      case MvnDocPublication => "_DocPublicationStep")
    case NodeJS(n) => (
      match n
      case NodePreparation => "_PreparationStep"
      case NodeUnitTest => "_UnitTestStep"
      case NodeIntegrationTest => "_IntegrationTestStep"
      case NodeDocs => "_DocsStep"
      case NodeVersionBump => "_VersionBumpingStep"
      case NodeVersionCommit => "_VersionCommittingStep"
      case NodeBuild => "_BuildStep"
      case NodeGitHubRelease => "_GitHubReleaseStep"
      case NodeArtifactPublication => "_ArtifactPublicationStep"
      case NodeDocPublication => "_DocPublicationStep"
      case NodeCleanup => "_CleanupStep"
      case NodeChangeLog => "ChangeLogStep")
  }

  /** A step: its class and the assembly it was constructed with, and nothing else. */
  datatype Step<A> = Step(cls: StepClass, assembly: A)

  /** `repr(step)`: "<" + class name + "()>". */
  function Repr<A>(s: Step<A>): (r: string)
    ensures |r| == |ClassName(s.cls)| + 4
    ensures r[0] == '<' && r[1..|r| - 3] == ClassName(s.cls) && r[|r| - 3..] == "()>"
  {
    "<" + ClassName(s.cls) + "()>"
  }

  /** Two steps print alike exactly when their classes have the same name, whatever their assemblies. */
  lemma ReprDeterminesClass<A>(s: Step<A>, t: Step<A>)
    ensures Repr(s) == Repr(t) <==> ClassName(s.cls) == ClassName(t.cls)
  {
    var r, q := Repr(s), Repr(t);
    if r == q {
      assert r[1..|r| - 3] == q[1..|q| - 3];
    }
  }

  /** The base class's `execute` always raises `NotImplementedError` and changes nothing. */
  function ExecuteBase(st: State): (e: Effect)
    ensures e.state == st && e.outcome == Fail(NotImplementedError)
  {
    Effect(st, Fail(NotImplementedError))
  }

  /** `self.getToken()`: the administrative GitHub token from the context's environment. */
  function GetToken(environ: Environ): Option<string> {
    Get(environ, "ADMIN_GITHUB_TOKEN")
  }
}

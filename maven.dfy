/** The Maven context's steps (src/pds/roundup/_maven.py). */
module Maven {
  import opened Wrappers
  import opened Errors
  import opened World
  import opened Steps

  /**
   * `MavenContext.steps`: every declared step name has a class. `requirements` names
   * the Maven-local class; `changeLog` names the shared one, so `_ChangeLogStep` is unused.
   */
  function StepTable(): (t: map<StepName, StepClass>)
    ensures forall n :: n in t <==> IsMember(n)
    ensures Requirements in t && ChangeLog in t && Null in t && t[Null] == NullStep
    ensures t[Requirements] == Maven(MvnRequirements) && t[Requirements] != RequirementsStep
    ensures t[ChangeLog] == ChangeLogStep && Maven(MvnChangeLog) !in t.Values
  {
    map[
      Null := NullStep,
      UnitTest := Maven(MvnUnitTest),
      IntegrationTest := Maven(MvnIntegrationTest),
      ChangeLog := ChangeLogStep,
      Requirements := Maven(MvnRequirements),
      Docs := Maven(MvnDocs),
      Build := Maven(MvnBuild),
      GitHubRelease := Maven(MvnGitHubRelease),
      ArtifactPublication := Maven(MvnArtifactPublication),
      DocPublication := Maven(MvnDocPublication)]
  }

  /** `execute` of each Maven step class only logs: it returns and changes nothing. */
  function Execute(c: MavenStep, st: State): (e: Effect)
    ensures e.state == st && e.outcome == Pass
  {
    Effect(st, Pass)
  }
}

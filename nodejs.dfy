/**
 * The Node.js context's steps (src/pds/roundup/_nodejs.py): the version-string
 * rules for package.json and the stability-dependent behaviour of each step.
 */
module NodeJS {
  import opened Wrappers
  import opened Strings
  import opened Commands
  import opened Errors
  import opened World
  import opened Steps
  import Util

  /** `NodeJSContext.steps`: a class for every step name, the four extra names included. */
  function StepTable(): (t: map<StepName, StepClass>)
    ensures forall n :: IsMember(n) ==> n in t
    ensures Preparation in t && VersionBump in t && VersionCommit in t && Cleanup in t
    ensures Requirements in t && Null in t && ChangeLog in t
    ensures t[Requirements] == RequirementsStep && t[Null] == NullStep
    ensures t[ChangeLog] == NodeJS(NodeChangeLog)
  {
    map[
      ArtifactPublication := NodeJS(NodeArtifactPublication),
      Build := NodeJS(NodeBuild),
      ChangeLog := NodeJS(NodeChangeLog),
      Cleanup := NodeJS(NodeCleanup),
      DocPublication := NodeJS(NodeDocPublication),
      Docs := NodeJS(NodeDocs),
      GitHubRelease := NodeJS(NodeGitHubRelease),
      IntegrationTest := NodeJS(NodeIntegrationTest),
      Null := NullStep,
      Preparation := NodeJS(NodePreparation),
      Requirements := RequirementsStep,
      UnitTest := NodeJS(NodeUnitTest),
      VersionBump := NodeJS(NodeVersionBump),
      VersionCommit := NodeJS(NodeVersionCommit)]
  }

  // ---------------------------------------------------------------------------
  // package.json
  // ---------------------------------------------------------------------------

  /** `read_package_metadata()`; an unreadable file raises `RoundupError`. */
  function ReadPackageMetadata(st: State): (r: Result<map<string, string>, Error>)
    ensures r.Ok? <==> st.packageJson.Some?
    ensures r.Ok? ==> r.value == st.packageJson.value
    ensures r.Err? ==> r.error == RoundupError(PackageJsonUnreadable)
  {
    match st.packageJson
    case None => Err(RoundupError(PackageJsonUnreadable))
    case Some(m) => Ok(m)
  }

  /** `read_package_metadata()['version']`; a missing key raises `KeyError`. */
  function CurrentVersion(st: State): (r: Result<string, Error>)
    ensures r.Ok? <==> st.packageJson.Some? && "version" in st.packageJson.value
    ensures r.Ok? ==> r.value == st.packageJson.value["version"]
    ensures st.packageJson.None? ==> r == Err(RoundupError(PackageJsonUnreadable))
    ensures st.packageJson.Some? && "version" !in st.packageJson.value ==> r == Err(KeyError("version"))
  {
    match ReadPackageMetadata(st)
    case Err(e) => Err(e)
    case Ok(m) => if "version" in m then Ok(m["version"]) else Err(KeyError("version"))
  }

  /** `after` is `before` with its version entry set to `v` and every other entry kept. */
  predicate VersionWritten(before: map<string, string>, after: map<string, string>, v: string) {
    && after.Keys == before.Keys + {"version"}
    && after["version"] == v
    && forall k :: k in before && k != "version" ==> after[k] == before[k]
  }

  /** `write_version_number(v)`: re-read package.json and replace only its version entry. */
  function WriteVersionNumber(st: State, v: string): (r: Result<State, Error>)
    ensures st.packageJson.None? ==> r == Err(RoundupError(PackageJsonUnreadable))
    ensures st.packageJson.Some? ==> r.Ok? && r.value.trace == st.trace && r.value.packageJson.Some?
    ensures r.Ok? ==> VersionWritten(st.packageJson.value, r.value.packageJson.value, v)
  {
    match ReadPackageMetadata(st)
    case Err(e) => Err(e)
    case Ok(m) => Ok(st.(packageJson := Some(m["version" := v])))
  }

  // ---------------------------------------------------------------------------
  // Version strings
  // ---------------------------------------------------------------------------

  /** The three numbers a `(\d+)\.(\d+)\.(\d+)` match reads, and the text after the match. */
  datatype Triple = Triple(major: nat, minor: nat, micro: nat, rest: string)

  /** "M.N.P" with each part printed as a decimal integer. */
  function Dotted(major: nat, minor: nat, micro: nat): string {
    NatToString(major) + "." + NatToString(minor) + "." + NatToString(micro)
  }

  /** A greedy `\d+` at the front of `s`: its value and what follows it. */
  function ScanNumber(s: string): Option<(nat, string)> {
    var k := DigitRun(s);
    if k == 0 then None else Some((ParseDigits(s[..k]), s[k..]))
  }

  /** `re.match(r'(\d+)\.(\d+)\.(\d+)', s)`: anchored at the start, anything may follow. */
  function ScanTriple(s: string): Option<Triple> {
    match ScanNumber(s)
    case None => None
    case Some((major, s1)) =>
      if s1 == [] || s1[0] != '.' then None
      else match ScanNumber(s1[1..])
        case None => None
        case Some((minor, s2)) =>
          if s2 == [] || s2[0] != '.' then None
          else match ScanNumber(s2[1..])
            case None => None
            case Some((micro, rest)) => Some(Triple(major, minor, micro, rest))
  }

  /** A greedy `\d+` over a non-empty digit run followed by a non-digit reads exactly that run. */
  lemma ScanNumberOfRun(d: string, rest: string)
    requires |d| > 0 && AllDigits(d)
    requires rest == [] || !IsDigit(rest[0])
    ensures ScanNumber(d + rest) == Some((ParseDigits(d), rest))
  {
    DigitRunOfRun(d, rest);
  }

  /** Every successful `\d+` scan splits its input into a non-empty digit run and a rest not starting with a digit. */
  lemma ScanNumberShape(s: string) returns (d: string)
    requires ScanNumber(s).Some?
    ensures |d| > 0 && AllDigits(d) && s == d + ScanNumber(s).value.1
    ensures ScanNumber(s).value.0 == ParseDigits(d)
    ensures ScanNumber(s).value.1 == [] || !IsDigit(ScanNumber(s).value.1[0])
  {
    var k := DigitRun(s);
    d := s[..k];
    assert s == s[..k] + s[k..];
  }

  lemma ScanNumberOfNumeral(n: nat, rest: string)
    requires rest == [] || !IsDigit(rest[0])
    ensures ScanNumber(NatToString(n) + rest) == Some((n, rest))
  {
    ScanNumberOfRun(NatToString(n), rest);
    ParseNatToString(n);
  }

  lemma ScanTripleSteps(s: string, s1: string, s2: string, major: nat, minor: nat)
    requires ScanNumber(s) == Some((major, s1)) && |s1| > 0 && s1[0] == '.'
    requires ScanNumber(s1[1..]) == Some((minor, s2)) && |s2| > 0 && s2[0] == '.'
    requires ScanNumber(s2[1..]).Some?
    ensures ScanTriple(s) == Some(Triple(major, minor, ScanNumber(s2[1..]).value.0, ScanNumber(s2[1..]).value.1))
  {
  }

  /**
   * Three non-empty digit runs joined by dots always match, whatever follows; when what
   * follows is not a digit, the parts are the runs' values (leading zeros included) and
   * the rest is exactly what follows.
   */
  lemma ScanTripleOfParts(a: string, b: string, c: string, rest: string)
    requires |a| > 0 && AllDigits(a) && |b| > 0 && AllDigits(b) && |c| > 0 && AllDigits(c)
    ensures ScanTriple(a + "." + b + "." + c + rest).Some?
    ensures rest == [] || !IsDigit(rest[0]) ==>
              ScanTriple(a + "." + b + "." + c + rest)
                == Some(Triple(ParseDigits(a), ParseDigits(b), ParseDigits(c), rest))
  {
    var s2 := "." + (c + rest);
    var s1 := "." + (b + s2);
    DottedParts(a, b, c, rest);
    ScanNumberOfRun(a, s1);
    assert s1[1..] == b + s2;
    ScanNumberOfRun(b, s2);
    assert s2[1..] == c + rest;
    ScanNumberOfDigit(c + rest);
    ScanTripleSteps(a + s1, s1, s2, ParseDigits(a), ParseDigits(b));
    if rest == [] || !IsDigit(rest[0]) {
      ScanNumberOfRun(c, rest);
    }
  }

  lemma DottedParts(a: string, b: string, c: string, rest: string)
    ensures a + "." + b + "." + c + rest == a + ("." + (b + ("." + (c + rest))))
  {
  }

  lemma ScanNumberOfDigit(s: string)
    requires |s| > 0 && IsDigit(s[0])
    ensures ScanNumber(s).Some?
  {
    assert DigitRun(s) > 0;
  }


  /**
   * Conversely, every match has that shape: three non-empty digit runs joined by dots,
   * the parts their values, and a rest that does not start with a digit.
   */
  lemma ScanTripleShape(s: string) returns (a: string, b: string, c: string)
    requires ScanTriple(s).Some?
    ensures |a| > 0 && AllDigits(a) && |b| > 0 && AllDigits(b) && |c| > 0 && AllDigits(c)
    ensures s == a + "." + b + "." + c + ScanTriple(s).value.rest
    ensures ScanTriple(s).value.major == ParseDigits(a)
    ensures ScanTriple(s).value.minor == ParseDigits(b)
    ensures ScanTriple(s).value.micro == ParseDigits(c)
    ensures ScanTriple(s).value.rest == [] || !IsDigit(ScanTriple(s).value.rest[0])
  {
    var s1, s2 := ScanTripleSplit(s);
    var t := ScanTriple(s).value;
    a := ScanNumberShape(s);
    b := ScanNumberShape(s1[1..]);
    c := ScanNumberShape(s2[1..]);
    DotThen(s2, c, t.rest);
    DotThen(s1, b, s2);
    DottedParts(a, b, c, t.rest);
  }

  lemma DotThen(x: string, d: string, t: string)
    requires |x| > 0 && x[0] == '.' && x[1..] == d + t
    ensures x == "." + (d + t)
  {
    assert x == [x[0]] + x[1..];
  }

  /** A successful match consumes at least "0.0.0" and leaves a suffix of its input. */
  lemma ScanTripleConsumes(s: string)
    requires ScanTriple(s).Some?
    ensures var rest := ScanTriple(s).value.rest;
            |rest| + 5 <= |s| && rest == s[|s| - |rest|..]
  {
    var rest := ScanTriple(s).value.rest;
    var a, b, c := ScanTripleShape(s);
    var head := a + "." + b + "." + c;
    assert s == head + rest;
    assert |head| >= 5;
    assert s[|head|..] == rest;
  }

  /** The two intermediate texts a successful M.N.P scan passes through. */
  lemma ScanTripleSplit(s: string) returns (s1: string, s2: string)
    requires ScanTriple(s).Some?
    ensures ScanNumber(s).Some? && ScanNumber(s).value.1 == s1 && |s1| > 0 && s1[0] == '.'
    ensures ScanNumber(s1[1..]).Some? && ScanNumber(s1[1..]).value.1 == s2 && |s2| > 0 && s2[0] == '.'
    ensures ScanNumber(s2[1..]).Some?
    ensures ScanTriple(s).value
              == Triple(ScanNumber(s).value.0, ScanNumber(s1[1..]).value.0,
                        ScanNumber(s2[1..]).value.0, ScanNumber(s2[1..]).value.1)
  {
    s1 := ScanNumber(s).value.1;
    s2 := ScanNumber(s1[1..]).value.1;
  }


  /** A printed "M.N.P" followed by a non-digit is read back as exactly M, N, P and that text. */
  lemma ScanDotted(major: nat, minor: nat, micro: nat, rest: string)
    requires rest == [] || !IsDigit(rest[0])
    ensures ScanTriple(Dotted(major, minor, micro) + rest) == Some(Triple(major, minor, micro, rest))
  {
    var a, b, c := NatToString(major), NatToString(minor), NatToString(micro);
    ParseNatToString(major);
    ParseNatToString(minor);
    ParseNatToString(micro);
    assert Dotted(major, minor, micro) + rest == a + "." + b + "." + c + rest;
    ScanTripleOfParts(a, b, c, rest);
  }

  /** `semver_re.match(v)`: `^(\d+)\.(\d+)\.(\d+)-unstable`, ignoring anything after it. */
  function MatchUnstable(v: string): (r: Option<Triple>)
    ensures r.Some? ==> ScanTriple(v) == r && "-unstable" <= r.value.rest
    ensures ScanTriple(v).Some? && "-unstable" <= ScanTriple(v).value.rest ==> r == ScanTriple(v)
  {
    match ScanTriple(v)
    case None => None
    case Some(t) => if "-unstable" <= t.rest then Some(t) else None
  }

  /** The version an unstable publication writes: the micro part incremented, "-unstable" kept, the rest dropped. */
  function NextUnstable(v: string): Option<string> {
    match MatchUnstable(v)
    case None => None
    case Some(t) => Some(Dotted(t.major, t.minor, t.micro + 1) + "-unstable")
  }

  /** An unstable version M.N.P-unstable (with anything after it) becomes M.N.(P+1)-unstable. */
  lemma NextUnstableOfDotted(major: nat, minor: nat, micro: nat, tail: string)
    ensures NextUnstable(Dotted(major, minor, micro) + "-unstable" + tail)
              == Some(Dotted(major, minor, micro + 1) + "-unstable")
  {
    var rest := "-unstable" + tail;
    assert Dotted(major, minor, micro) + "-unstable" + tail == Dotted(major, minor, micro) + rest;
    ScanDotted(major, minor, micro, rest);
    assert "-unstable" <= rest;
  }

  /** What one unstable publication writes is accepted by the next, which bumps the micro part again. */
  lemma NextUnstableRepeats(v: string)
    requires NextUnstable(v).Some?
    ensures MatchUnstable(NextUnstable(v).value).Some?
    ensures MatchUnstable(NextUnstable(v).value).value.micro == MatchUnstable(v).value.micro + 1
  {
    var t := MatchUnstable(v).value;
    NextUnstableOfDotted(t.major, t.minor, t.micro + 1, []);
    assert Dotted(t.major, t.minor, t.micro + 1) + "-unstable" + [] == NextUnstable(v).value;
    var rest := "-unstable";
    ScanDotted(t.major, t.minor, t.micro + 1, rest);
  }

  /** The version cleanup writes after a stable release: minor incremented, micro reset to 0. */
  function NextDevVersion(v: string): Option<string> {
    match ScanTriple(v)
    case None => None
    case Some(t) => Some(Dotted(t.major, t.minor + 1, 0))
  }

  /** A version beginning M.N.P becomes M.(N+1).0, whatever P was and whatever follows. */
  lemma NextDevOfDotted(major: nat, minor: nat, micro: nat, rest: string)
    requires rest == [] || !IsDigit(rest[0])
    ensures NextDevVersion(Dotted(major, minor, micro) + rest) == Some(Dotted(major, minor + 1, 0))
  {
    ScanDotted(major, minor, micro, rest);
  }

  /** `f'{micro}'` of a TAG_RE group that may be absent: Python prints `None`. */
  function MicroText(micro: Option<string>): string {
    match micro
    case None => "None"
    case Some(m) => m
  }

  /** `f'{major}.{minor}.{micro}'` for a TAG_RE match. */
  function ReleaseVersion(m: TagMatch): string {
    NatToString(m.major) + "." + NatToString(m.minor) + "." + MicroText(m.micro)
  }

  /** After a stable release of M.N.P, cleanup moves package.json on to M.(N+1).0. */
  lemma ReleaseThenNextDev(major: nat, minor: nat, micro: string)
    requires |micro| > 0 && AllDigits(micro)
    ensures NextDevVersion(ReleaseVersion(TagMatch(major, minor, Some(micro))))
              == Some(Dotted(major, minor + 1, 0))
  {
    var a, b := NatToString(major), NatToString(minor);
    ParseNatToString(major);
    ParseNatToString(minor);
    assert ReleaseVersion(TagMatch(major, minor, Some(micro))) == a + "." + b + "." + micro + [];
    ScanTripleOfParts(a, b, micro, []);
  }

  lemma ScanTripleStops(s: string, s1: string, s2: string, major: nat, minor: nat)
    requires ScanNumber(s) == Some((major, s1)) && |s1| > 0 && s1[0] == '.'
    requires ScanNumber(s1[1..]) == Some((minor, s2)) && |s2| > 0 && s2[0] == '.'
    requires ScanNumber(s2[1..]).None?
    ensures ScanTriple(s) == None
  {
  }

  /**
   * A release tag without a micro part gives the text "M.N.None": re-tagging uses it as
   * it is, and it is not a version that the M.N.P scan accepts.
   */
  lemma ReleaseTagWithoutMicro(major: nat, minor: nat)
    ensures var v := ReleaseVersion(TagMatch(major, minor, None));
            |v| > 5 && v[|v| - 5..] == ".None" && ScanTriple(v) == None
  {
    var a, b := NatToString(major), NatToString(minor);
    var s2 := ".None";
    var s1 := "." + (b + s2);
    var v := ReleaseVersion(TagMatch(major, minor, None));
    DottedText(a, b, "None");
    assert v == a + s1 && v == (a + "." + b) + s2;
    ScanNumberOfNumeral(major, s1);
    assert s1[1..] == b + s2;
    ScanNumberOfNumeral(minor, s2);
    assert DigitRun(s2[1..]) == 0;
    ScanTripleStops(v, s1, s2, major, minor);
  }

  lemma DottedText(a: string, b: string, c: string)
    ensures a + "." + b + "." + c == a + ("." + (b + ("." + c)))
    ensures a + "." + b + "." + c == (a + "." + b) + ("." + c)
  {
  }


  // ---------------------------------------------------------------------------
  // Steps
  // ---------------------------------------------------------------------------

  /** `git describe` of the newest tag matching the release pattern. */
  const Describe: Command := InvokeGit(["describe", "--tags", "--abbrev=0", "--match", "release/*"])

  /** The stripped output of `Describe` issued in state `st`, if it succeeds. */
  function TagAt(h: Host, st: State): Option<string> {
    match h.shell(st.trace, Describe)
    case Done(out) => Some(Strip(out))
    case Failed => None
  }

  /** The TAG_RE match of a non-empty release tag that has a micro part, if the lookup found one. */
  function ReleaseMatch(h: Host, st: State): (r: Option<TagMatch>)
    ensures r.Some? <==> TagAt(h, st).Some? && TagAt(h, st).value != "" && h.tagRe(TagAt(h, st).value).Some?
                         && h.tagRe(TagAt(h, st).value).value.micro.Some?
    ensures r.Some? ==> r == h.tagRe(TagAt(h, st).value)
  {
    match TagAt(h, st)
    case None => None
    case Some(tag) =>
      if tag == "" then None
      else match h.tagRe(tag)
        case None => None
        case Some(m) => if m.micro.None? then None else Some(m)
  }

  const BuildCommand: Command := Invoke(["npm", "run", "build"])
  const PublishCommand: Command := Invoke(["npm", "publish", "--verbose", "--access", "public"])

  /**
   * `_VersionBumpingStep.execute`: nothing on an unstable assembly. On a stable one the
   * release tag must be non-empty, match TAG_RE and have a micro part, or `RoundupError`
   * is raised with package.json untouched; otherwise "major.minor.micro" is written.
   */
  function ExecuteVersionBump(stable: bool, h: Host, st: State): (e: Effect)
    ensures st.trace <= e.state.trace
    ensures !stable ==> e == Effect(st, Pass)
    ensures e.outcome.Fail? ==> e.state.packageJson == st.packageJson
    ensures stable && TagAt(h, st) == Some("") ==>
              e == Effect(st.(trace := st.trace + [Describe]), Fail(RoundupError(NoReleaseTag)))
    ensures stable && TagAt(h, st).Some? && TagAt(h, st).value != "" ==>
              var tag := TagAt(h, st).value;
              var st1 := st.(trace := st.trace + [Describe]);
              && (h.tagRe(tag).None? ==> e == Effect(st1, Fail(RoundupError(NotReleaseTag(tag)))))
              && (h.tagRe(tag).Some? && h.tagRe(tag).value.micro.None? ==> e == Effect(st1, Fail(RoundupError(NoMicro))))
    ensures stable && TagAt(h, st).None? ==>
              e == Effect(st.(trace := st.trace + [Describe]), Fail(ProcessError(Describe)))
    ensures stable && ReleaseMatch(h, st).Some? ==>
              var addLabel := AddVersionLabel(ReleaseVersion(ReleaseMatch(h, st).value));
              var st1 := st.(trace := st.trace + [Describe]);
              && e.state.trace == st1.trace + [addLabel]
              && (h.shell(st1.trace, addLabel).Failed? ==> e.outcome == Fail(ProcessError(addLabel)))
              && (h.shell(st1.trace, addLabel).Done? ==> (e.outcome.Pass? <==> st.packageJson.Some?))
              && (h.shell(st1.trace, addLabel).Done? && st.packageJson.None? ==>
                    e.outcome == Fail(RoundupError(PackageJsonUnreadable)))
    ensures stable && e.outcome.Pass? ==>
              && TagAt(h, st).Some? && h.tagRe(TagAt(h, st).value).Some?
              && h.tagRe(TagAt(h, st).value).value.micro.Some?
              && st.packageJson.Some? && e.state.packageJson.Some?
              && VersionWritten(st.packageJson.value, e.state.packageJson.value,
                                ReleaseVersion(h.tagRe(TagAt(h, st).value).value))
  {
    if !stable then Effect(st, Pass)
    else
      var (st1, out) := Query(h, st, Describe);
      match out
      case Err(err) => Effect(st1, Fail(err))
      case Ok(raw) =>
        var tag := Strip(raw);
        if tag == "" then Effect(st1, Fail(RoundupError(NoReleaseTag)))
        else match h.tagRe(tag)
          case None => Effect(st1, Fail(RoundupError(NotReleaseTag(tag))))
          case Some(m) =>
            if m.micro.None? then Effect(st1, Fail(RoundupError(NoMicro)))
            else
              var version := ReleaseVersion(m);
              var e2 := Run(h, st1, AddVersionLabel(version));
              if e2.outcome.Fail? then e2
              else match WriteVersionNumber(e2.state, version)
                case Err(err) => Effect(e2.state, Fail(err))
                case Ok(st3) => Effect(st3, Pass)
  }

  /** `_VersionCommittingStep.execute`: commit package.json on a stable assembly only. */
  function ExecuteVersionCommit(stable: bool, h: Host, st: State): (e: Effect)
    ensures !stable ==> e == Effect(st, Pass)
    ensures stable ==> e == Run(h, st, Commit("package.json", "Commiting package.json for stable release"))
  {
    if !stable then Effect(st, Pass)
    else Run(h, st, Commit("package.json", "Commiting package.json for stable release"))
  }

  /**
   * `_BuildStep.execute`: a stable build leaves the version alone; an unstable one first
   * rewrites it to version + "-unstable". Both then run the npm build.
   */
  function ExecuteBuild(stable: bool, h: Host, st: State): (e: Effect)
    ensures st.trace <= e.state.trace
    ensures stable ==> e == Run(h, st, BuildCommand)
    ensures !stable && CurrentVersion(st).Err? ==> e == Effect(st, Fail(CurrentVersion(st).error))
    ensures !stable && CurrentVersion(st).Ok? ==>
              && e.state.trace == st.trace + [BuildCommand]
              && e.state.packageJson.Some?
              && VersionWritten(st.packageJson.value, e.state.packageJson.value, CurrentVersion(st).value + "-unstable")
              && e == Run(h, st.(packageJson := e.state.packageJson), BuildCommand)
  {
    if stable then Run(h, st, BuildCommand)
    else match CurrentVersion(st)
      case Err(err) => Effect(st, Fail(err))
      case Ok(v) =>
        match WriteVersionNumber(st, v + "-unstable")
        case Err(err) => Effect(st, Fail(err))
        case Ok(st1) => Run(h, st1, BuildCommand)
  }

  /** The body of the `try` in `_ArtifactPublicationStep.execute`. */
  function PublishAttempt(stable: bool, h: Host, st: State): (e: Effect)
    ensures st.trace <= e.state.trace
    ensures stable ==> e == Run(h, st, PublishCommand)
    ensures !stable ==> e == PublishUnstable(h, st)
  {
    if stable then Run(h, st, PublishCommand) else PublishUnstable(h, st)
  }

  /**
   * The unstable branch of that body: read the version, reject one that is not
   * M.N.P-unstable, write M.N.(P+1)-unstable, commit it and publish.
   */
  function PublishUnstable(h: Host, st: State): (e: Effect)
    ensures st.trace <= e.state.trace
    ensures CurrentVersion(st).Err? ==> e == Effect(st, Fail(CurrentVersion(st).error))
    ensures CurrentVersion(st).Ok? && MatchUnstable(CurrentVersion(st).value).None? ==>
              e == Effect(st, Fail(RoundupError(MalformedVersion(CurrentVersion(st).value))))
    ensures CurrentVersion(st).Ok? && MatchUnstable(CurrentVersion(st).value).Some? ==>
              && e.state.packageJson.Some?
              && VersionWritten(st.packageJson.value, e.state.packageJson.value,
                                NextUnstable(CurrentVersion(st).value).value)
              && e == CommitAndPublish(h, st.(packageJson := e.state.packageJson),
                                       MatchUnstable(CurrentVersion(st).value).value)
  {
    match CurrentVersion(st)
    case Err(err) => Effect(st, Fail(err))
    case Ok(v) =>
      match MatchUnstable(v)
      case None => Effect(st, Fail(RoundupError(MalformedVersion(v))))
      case Some(t) =>
        match WriteVersionNumber(st, Dotted(t.major, t.minor, t.micro + 1) + "-unstable")
        case Err(err) => Effect(st, Fail(err))
        case Ok(st1) => CommitAndPublish(h, st1, t)
  }

  /** The commit of the bumped version, then `npm publish` if the commit succeeded. */
  function CommitAndPublish(h: Host, st: State, t: Triple): (e: Effect)
    ensures e.state.packageJson == st.packageJson
    ensures var commit := BumpCommit(t);
            && e.state.trace == st.trace + [commit] + (if h.shell(st.trace, commit).Done? then [PublishCommand] else [])
            && (h.shell(st.trace, commit).Failed? ==> e.outcome == Fail(ProcessError(commit)))
            && (h.shell(st.trace, commit).Done? ==>
                  e.outcome == Run(h, st.(trace := st.trace + [commit]), PublishCommand).outcome)
  {
    AndThen(h, Run(h, st, BumpCommit(t)), PublishCommand)
  }

  /** The commit of an unstable publication, naming the bumped M.N.(P+1). */
  function BumpCommit(t: Triple): Command {
    Commit("package.json", "Committing bumped version \U{2116} " + Dotted(t.major, t.minor, t.micro + 1)
                           + " for unstable assembly")
  }

  /**
   * `_ArtifactPublicationStep.execute`: stable publication re-raises a failed command;
   * unstable publication first bumps the micro part of an M.N.P-unstable version and
   * swallows failed commands, but never a `RoundupError`.
   */
  function ExecuteArtifactPublication(stable: bool, h: Host, st: State): (e: Effect)
    ensures st.trace <= e.state.trace
    ensures stable ==> e == Run(h, st, PublishCommand)
    ensures !stable && e.outcome.Fail? ==> !e.outcome.error.ProcessError?
    ensures !stable && CurrentVersion(st).Err? ==> e == Effect(st, Fail(CurrentVersion(st).error))
    ensures !stable && CurrentVersion(st).Ok? && MatchUnstable(CurrentVersion(st).value).None? ==>
              e == Effect(st, Fail(RoundupError(MalformedVersion(CurrentVersion(st).value))))
    ensures !stable && CurrentVersion(st).Ok? && NextUnstable(CurrentVersion(st).value).Some? ==>
              && e.outcome.Pass?
              && e.state.packageJson.Some?
              && VersionWritten(st.packageJson.value, e.state.packageJson.value,
                                NextUnstable(CurrentVersion(st).value).value)
              && var commit := BumpCommit(MatchUnstable(CurrentVersion(st).value).value);
                 e.state.trace == st.trace + [commit] + (if h.shell(st.trace, commit).Done? then [PublishCommand] else [])
  {
    var attempt := PublishAttempt(stable, h, st);
    if !stable && attempt.outcome.Fail? && attempt.outcome.error.ProcessError? then Effect(attempt.state, Pass)
    else attempt
  }

  /** `_GitHubReleaseStep._tagRelease`: re-tag HEAD as v{major}.{minor}.{micro}, or skip quietly. */
  function TagRelease(h: Host, st: State): (e: Effect)
    ensures e.state.packageJson == st.packageJson && st.trace <= e.state.trace
    ensures TagAt(h, st).Some? && (TagAt(h, st).value == "" || h.tagRe(TagAt(h, st).value).None?) ==>
              e == Effect(st.(trace := st.trace + [Describe]), Pass)
    ensures TagAt(h, st).Some? && TagAt(h, st).value != "" && h.tagRe(TagAt(h, st).value).Some? ==>
              var tag := "v" + ReleaseVersion(h.tagRe(TagAt(h, st).value).value);
              && e.state.trace <= st.trace + [Describe] + RetagCommands(tag)
              && (e.outcome.Pass? ==> e.state.trace == st.trace + [Describe] + RetagCommands(tag))
              && e == RunAll(h, st.(trace := st.trace + [Describe]), RetagCommands(tag))
    ensures TagAt(h, st).None? ==> e == Effect(st.(trace := st.trace + [Describe]), Fail(ProcessError(Describe)))
  {
    var (st1, out) := Query(h, st, Describe);
    match out
    case Err(err) => Effect(st1, Fail(err))
    case Ok(raw) =>
      var tag := Strip(raw);
      if tag == "" then Effect(st1, Pass)
      else match h.tagRe(tag)
        case None => Effect(st1, Pass)
        case Some(m) => RunAll(h, st1, RetagCommands("v" + ReleaseVersion(m)))
  }

  function RetagCommands(tag: string): seq<Command> {
    [InvokeGit(["tag", "--annotate", "--force", "--message", "Tag release " + tag, tag]),
     InvokeGit(["push", "--tags"])]
  }

  function ReleaseCommand(token: string): Command {
    Invoke(["/usr/local/bin/nodejs-release", "--debug", "--token", token])
  }

  function SnapshotCommand(token: string): Command {
    Invoke(["/usr/local/bin/nodejs-release", "--debug", "--snapshot", "--token", token])
  }

  /**
   * `_GitHubReleaseStep.execute`: nothing without a token; otherwise prune dev tags,
   * then either re-tag and release (stable) or snapshot-release and prune release tags.
   */
  function ExecuteGitHubRelease(stable: bool, environ: Environ, h: Host, st: State): (e: Effect)
    ensures e.state.packageJson == st.packageJson && st.trace <= e.state.trace
    ensures !Truthy(GetToken(environ)) ==> e == Effect(st, Pass)
    ensures Truthy(GetToken(environ)) ==>
              |e.state.trace| > |st.trace| && e.state.trace[|st.trace|] == DeleteTags("*dev*")
    ensures Truthy(GetToken(environ)) && h.shell(st.trace, DeleteTags("*dev*")).Failed? ==>
              e == Effect(st.(trace := st.trace + [DeleteTags("*dev*")]), Fail(ProcessError(DeleteTags("*dev*"))))
    ensures Truthy(GetToken(environ)) && h.shell(st.trace, DeleteTags("*dev*")).Done? ==>
              var st1 := st.(trace := st.trace + [DeleteTags("*dev*")]);
              var token := GetToken(environ).value;
              && (stable ==> e == AndThen(h, TagRelease(h, st1), ReleaseCommand(token)))
              && (!stable ==> e == RunAll(h, st1, [SnapshotCommand(token), DeleteTags("release/*")]))
  {
    var token := GetToken(environ);
    if !Truthy(token) then Effect(st, Pass)
    else
      var e1 := Run(h, st, DeleteTags("*dev*"));
      if e1.outcome.Fail? then e1
      else if stable then
        var e2 := TagRelease(h, e1.state);
        AndThen(h, e2, ReleaseCommand(token.value))
      else
        RunAll(h, e1.state, [SnapshotCommand(token.value), DeleteTags("release/*")])
  }

  /**
   * The part of `_CleanupStep.execute` after the remote tag is deleted: move a version
   * beginning M.N.P on to M.(N+1).0 and commit it; any other version is left as it is.
   */
  function BumpToNextDev(h: Host, st: State): (e: Effect)
    ensures st.trace <= e.state.trace
    ensures CurrentVersion(st).Err? ==> e == Effect(st, Fail(CurrentVersion(st).error))
    ensures CurrentVersion(st).Ok? && NextDevVersion(CurrentVersion(st).value).None? ==> e == Effect(st, Pass)
    ensures CurrentVersion(st).Ok? && NextDevVersion(CurrentVersion(st).value).Some? ==>
              && e.state.packageJson.Some?
              && VersionWritten(st.packageJson.value, e.state.packageJson.value,
                                NextDevVersion(CurrentVersion(st).value).value)
              && var t := ScanTriple(CurrentVersion(st).value).value;
                 e == Run(h, st.(packageJson := e.state.packageJson), NextDevCommit(t.major, t.minor + 1, t.micro))
  {
    match CurrentVersion(st)
    case Err(err) => Effect(st, Fail(err))
    case Ok(v) =>
      match ScanTriple(v)
      case None => Effect(st, Pass)
      case Some(t) =>
        match WriteVersionNumber(st, Dotted(t.major, t.minor + 1, 0))
        case Err(err) => Effect(st, Fail(err))
        case Ok(st1) =>
          Run(h, st1, NextDevCommit(t.major, t.minor + 1, t.micro))
  }

  /** The commit after cleanup; its message is built from the bumped minor and the old micro. */
  function NextDevCommit(major: nat, minor: nat, micro: nat): Command {
    Commit("package.json", "Setting next dev version to " + Dotted(major, minor, micro))
  }

  /**
   * `_CleanupStep.execute`: nothing when unstable. When stable, the release tag must be
   * found, is deleted on the remote, and then the version moves on as `BumpToNextDev` says.
   */
  function ExecuteCleanup(stable: bool, h: Host, st: State): (e: Effect)
    ensures st.trace <= e.state.trace
    ensures !stable ==> e == Effect(st, Pass)
    ensures stable && TagAt(h, st) == Some("") ==>
              e == Effect(st.(trace := st.trace + [Describe]), Fail(RoundupError(NoCleanupTag)))
    ensures stable && TagAt(h, st).None? ==>
              e == Effect(st.(trace := st.trace + [Describe]), Fail(ProcessError(Describe)))
    ensures e.state.packageJson == st.packageJson
            || (&& CurrentVersion(st).Ok? && NextDevVersion(CurrentVersion(st).value).Some?
                && e.state.packageJson.Some?
                && VersionWritten(st.packageJson.value, e.state.packageJson.value,
                                  NextDevVersion(CurrentVersion(st).value).value))
    ensures stable && CurrentVersion(st).Ok? && NextDevVersion(CurrentVersion(st).value).None? ==>
              && e.state.packageJson == st.packageJson
              && (e.outcome.Fail? ==> e.outcome.error.ProcessError? || e.outcome.error == RoundupError(NoCleanupTag))
    ensures stable && TagAt(h, st).Some? && TagAt(h, st).value != "" ==>
              var st1 := st.(trace := st.trace + [Describe]);
              var push := InvokeGit(["push", "origin", ":" + TagAt(h, st).value]);
              && (h.shell(st1.trace, push).Done? ==> e == BumpToNextDev(h, st1.(trace := st1.trace + [push])))
              && (h.shell(st1.trace, push).Failed? ==>
                    e == Effect(st1.(trace := st1.trace + [push]), Fail(ProcessError(push))))
  {
    if !stable then Effect(st, Pass)
    else
      var (st1, out) := Query(h, st, Describe);
      match out
      case Err(err) => Effect(st1, Fail(err))
      case Ok(raw) =>
        var tag := Strip(raw);
        if tag == "" then Effect(st1, Fail(RoundupError(NoCleanupTag)))
        else
          var e2 := Run(h, st1, InvokeGit(["push", "origin", ":" + tag]));
          if e2.outcome.Fail? then e2
          else
            assert CurrentVersion(e2.state) == CurrentVersion(st);
            BumpToNextDev(h, e2.state)
  }

  /**
   * `_PreparationStep.execute`: configure git, require an npm token, install packages.
   * Writing .npmrc, extending PATH and removing node_modules are not modelled.
   */
  function ExecutePreparation(environ: Environ, h: Host, st: State): (e: Effect)
    ensures e.state.packageJson == st.packageJson
    ensures st.trace <= e.state.trace <= st.trace + [GitConfig, Invoke(["npm", "install"])]
    ensures h.shell(st.trace, GitConfig).Done? && !Truthy(Get(environ, "NPMJS_COM_TOKEN")) ==>
              e == Effect(st.(trace := st.trace + [GitConfig]), Fail(RoundupError(NoNpmToken)))
    ensures h.shell(st.trace, GitConfig).Done? && Truthy(Get(environ, "NPMJS_COM_TOKEN")) ==>
              e == Run(h, st.(trace := st.trace + [GitConfig]), Invoke(["npm", "install"]))
    ensures h.shell(st.trace, GitConfig).Failed? ==>
              e == Effect(st.(trace := st.trace + [GitConfig]), Fail(ProcessError(GitConfig)))
  {
    var e1 := Run(h, st, GitConfig);
    if e1.outcome.Fail? then e1
    else if !Truthy(Get(environ, "NPMJS_COM_TOKEN")) then Effect(e1.state, Fail(RoundupError(NoNpmToken)))
    else Run(h, e1.state, Invoke(["npm", "install"]))
  }

  /** The Node.js `ChangeLogStep.execute`: prune dev tags, then the shared changelog step. */
  function ExecuteChangeLog(environ: Environ, h: Host, st: State): (e: Effect)
    ensures e.state.packageJson == st.packageJson
    ensures |e.state.trace| > |st.trace| && e.state.trace[..|st.trace| + 1] == st.trace + [DeleteTags("*dev*")]
    ensures h.shell(st.trace, DeleteTags("*dev*")).Done? ==>
              e == Util.ExecuteChangeLog(environ, h, st.(trace := st.trace + [DeleteTags("*dev*")]))
    ensures h.shell(st.trace, DeleteTags("*dev*")).Failed? ==>
              e == Effect(st.(trace := st.trace + [DeleteTags("*dev*")]), Fail(ProcessError(DeleteTags("*dev*"))))
  {
    var e1 := Run(h, st, DeleteTags("*dev*"));
    if e1.outcome.Fail? then e1 else Util.ExecuteChangeLog(environ, h, e1.state)
  }

  const UnitTestCommand: Command := Invoke(["npm", "test"])
  const DocsCommand: Command := Invoke(["npm", "run", "jsdoc"])
  const DocPublicationCommand: Command := Delegate("DocPublicationStep")

  /** `execute` of each Node.js step class. */
  function Execute(c: NodeStep, stable: bool, environ: Environ, h: Host, st: State): (e: Effect)
    ensures c == NodeIntegrationTest ==> e == Effect(st, Pass)
    ensures c == NodePreparation ==> e == ExecutePreparation(environ, h, st)
    ensures c == NodeUnitTest ==> e == Run(h, st, UnitTestCommand)
    ensures c == NodeDocs ==> e == Run(h, st, DocsCommand)
    ensures c == NodeVersionBump ==> e == ExecuteVersionBump(stable, h, st)
    ensures c == NodeVersionCommit ==> e == ExecuteVersionCommit(stable, h, st)
    ensures c == NodeBuild ==> e == ExecuteBuild(stable, h, st)
    ensures c == NodeGitHubRelease ==> e == ExecuteGitHubRelease(stable, environ, h, st)
    ensures c == NodeArtifactPublication ==> e == ExecuteArtifactPublication(stable, h, st)
    ensures c == NodeDocPublication ==> e == Run(h, st, DocPublicationCommand)
    ensures c == NodeCleanup ==> e == ExecuteCleanup(stable, h, st)
    ensures c == NodeChangeLog ==> e == ExecuteChangeLog(environ, h, st)
  {
    match c
    case NodePreparation => ExecutePreparation(environ, h, st)
    case NodeUnitTest => Run(h, st, UnitTestCommand)
    case NodeIntegrationTest => Effect(st, Pass)
    case NodeDocs => Run(h, st, DocsCommand)
    case NodeVersionBump => ExecuteVersionBump(stable, h, st)
    case NodeVersionCommit => ExecuteVersionCommit(stable, h, st)
    case NodeBuild => ExecuteBuild(stable, h, st)
    case NodeGitHubRelease => ExecuteGitHubRelease(stable, environ, h, st)
    case NodeArtifactPublication => ExecuteArtifactPublication(stable, h, st)
    case NodeDocPublication => Run(h, st, DocPublicationCommand)
    case NodeCleanup => ExecuteCleanup(stable, h, st)
    case NodeChangeLog => ExecuteChangeLog(environ, h, st)
  }

  /** Every Node.js step only appends to the trace. */
  lemma ExecuteExtendsTrace(c: NodeStep, stable: bool, environ: Environ, h: Host, st: State)
    ensures st.trace <= Execute(c, stable, environ, h, st).state.trace
  {
    match c
    case NodePreparation =>
    case NodeUnitTest =>
    case NodeIntegrationTest =>
    case NodeDocs =>
    case NodeVersionBump =>
    case NodeVersionCommit =>
    case NodeBuild =>
    case NodeGitHubRelease =>
    case NodeArtifactPublication =>
    case NodeDocPublication =>
    case NodeCleanup =>
    case NodeChangeLog =>
  }
}

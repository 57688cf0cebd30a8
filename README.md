# roundup-action: the decision layer, in Dafny

PDS Roundup is a GitHub Action that takes a software project through its continuous
integration and release steps:
- testing;
- changelog generation;
- documentation;
- building;
- GitHub release;
- artifact publication;
- documentation publication.

It picks a *context* from marker files in the working directory. The context is Python, Maven
or Node.js, and its table maps each *step name* to the step class that ecosystem supports.
An *assembly* names the steps to run, and its `roundup` builds and runs them. Stable
and unstable PDS assemblies run the same nine steps. The Node.js steps rewrite the version in
package.json differently depending on stability.

This project models that decision layer. External commands (git, npm, twine, the changelog
generator, the GitHub helpers) do not run here. Each becomes an uninterpreted `Command`
appended to a trace in `World.State`, and an oracle `Host.shell` decides whether it succeeds
and what it prints, possibly depending on the commands issued before. package.json is a
string map inside the same state, and `None` stands for a file that cannot be read.

Every step's `execute` is a function from a state to an `Effect`: the new state and
`Pass` or `Fail(error)`. Python's exceptions are the constructors of `Errors.Error`.

Modules, in dependency order:
- `Wrappers`: `Option`, `Result`, `Outcome`.
- `Strings`: the Python string behaviour the source relies on:
  - `str.strip`;
  - ASCII `str.lower`;
  - POSIX `os.path.join`;
  - `split('/')[1]`;
  - decimal printing and parsing of naturals;
  - greedy `\d+`.
- `Commands`, `Errors`, `World`: the trace model.
- `Steps`: step names, step classes, the base `Step`.
- `Util`, `Python`, `Maven`, `NodeJS`: shared and per-ecosystem steps.
- `Contexts`, `Package` (marker table, detection, `_read_version`), `Assemblies`.
- `Detectives`: locating and reading `version.txt`.

Where the code and its documentation differ, the model follows the code:
- `Context.create` with no marker in the listing does not return None. It reads an unbound
  local, so `Package.Detect` yields `UnboundLocalError("context")`.
- The Python GitHub release step never reaches its snapshot release. `exec` returns nothing, so the loop over the listed dev tags raises `TypeError`, and `Python.ExecuteGitHubRelease` always fails once a token is present.
- A stable Node.js cleanup writes M.(N+1).0. Its commit message names M.(N+1).P, the old
  micro, and the model keeps that message.

## Model

| member | source | states |
|---|---|---|
| Steps.MembersAreTenDistinct | src/pds/roundup/step.py:20-30 | `StepName` has exactly ten members, `null` first and `docPublication` last; membership is exactly the ten declared names; their string values are pairwise distinct |
| Steps.FromValue | src/pds/roundup/step.py:20-30 | looking a name up by its text yields only a declared member whose value is that text |
| Steps.FromValueOfValue | src/pds/roundup/step.py:21-30 | looking a member up by its value returns that member; the four Node.js-only names are not found |
| Steps.Repr | src/pds/roundup/step.py:13-14 | a step prints as "<" + class name + "()>" and nothing else |
| Steps.ReprDeterminesClass | src/pds/roundup/step.py:13-14 | two steps print alike iff their classes have the same name, whatever assemblies they are bound to |
| Steps.ExecuteBase | src/pds/roundup/step.py:16-17 | the base `execute` always fails with `NotImplementedError` and changes nothing |
| World.Run | src/pds/roundup/util.py:10-13 | running a command appends exactly it to the trace; it passes iff the shell succeeds, else fails with `ProcessError` of that command; package.json is untouched |
| World.RunAll | src/pds/roundup/util.py:10-13 | a sequence of commands issues a prefix of them in order, all of them on success; a failure issues at least one and names the last command issued |
| World.RunAllPassesIff | src/pds/roundup/util.py:10-13 | the sequence passes if and only if every command succeeds when run after the ones before it |
| World.RunAllFailsAtFirstFailure | src/pds/roundup/util.py:10-13 | a failed sequence issued exactly the commands up to the first one that fails: every earlier one succeeded and that one failed |
| Strings.Strip | src/pds/roundup/__init__.py:32 | `str.strip`: the result has no surrounding whitespace, is no longer than the input, and is empty iff the input is all whitespace |
| Strings.StripPadded | src/pds/roundup/__init__.py:32 | stripping whitespace padding around a trimmed text gives back exactly that text |
| Strings.StripIdempotent | src/pds/roundup/__init__.py:32 | stripping twice is stripping once |
| Strings.SplitField1 | src/pds/roundup/util.py:45 | `split('/')[1]` exists iff the text contains '/', and then contains no '/' |
| Strings.SplitOwnerRepo | src/pds/roundup/util.py:45 | for "owner/repo…" with '/'-free owner and repo, component 1 is the repo |
| Strings.NatToString | src/pds/roundup/_nodejs.py:147 | `f'{n}'` for a natural: non-empty, all decimal digits, no leading zero |
| Strings.ParseNatToString | src/pds/roundup/_nodejs.py:246 | `int()` of a printed natural gives back that natural |
| Strings.DigitRun | src/pds/roundup/_nodejs.py:40 | greedy `\d+`: the run consists of digits and is followed by a non-digit or the end |
| Strings.DigitRunOfRun | src/pds/roundup/_nodejs.py:279 | over a digit run followed by a non-digit or the end, greedy `\d+` stops exactly at the end of the run |
| Util.Populated | src/pds/roundup/util.py:16-21 | the keys are the input's plus the two PyPI keys; each PyPI key keeps its value when present, even if empty, else 'pypi' / 'secret'; every other key keeps its value |
| Util.PopulateEnvVars | src/pds/roundup/util.py:16-27 | the returned copy is `Populated(env)`, and the warnings are exactly the missing GitHub variables in checking order |
| Util.GitHubVarsDoNotAffectResult | src/pds/roundup/util.py:23-25 | a missing GitHub variable changes only the warnings, never the returned environment |
| Util.Missing | src/pds/roundup/util.py:23-25 | a variable is warned about iff it is checked and absent |
| Util.ExecuteNull | src/pds/roundup/util.py:30-32 | the null step has no effect and passes |
| Util.ChangeLogArgv | src/pds/roundup/util.py:47-64 | the generator's argv has 16 entries, the project after '--project', 'CHANGELOG.md' after '--output' and the token right after '--token' |
| Util.ExecuteChangeLog | src/pds/roundup/util.py:38-64 | with no or an empty token nothing runs; with no GITHUB_REPOSITORY it fails with `AttributeError`, with no '/' in it with `IndexError`; otherwise the effect is exactly running the one generator command for the repository name after the '/' with the token, and the step's outcome is that command's |
| Util.ChangeLogRunsForRepository | src/pds/roundup/util.py:39-64 | with a token and GITHUB_REPOSITORY "owner/repo", exactly one generator command for `repo` with that token is issued |
| Util.ExecuteRequirements | src/pds/roundup/_nodejs.py:28 | the shared requirements step is one opaque action |
| Python.StepTable | src/pds/roundup/_python.py:14-29 | the Python table maps exactly the ten declared names; null, changeLog and requirements go to the shared steps |
| Python.CheeseshopURL | src/pds/roundup/_python.py:34-39 | the production index iff the assembly is stable, the test index iff it is not |
| Python.CheeseshopCredentials | src/pds/roundup/_python.py:41-47 | succeeds iff both values are non-empty; a missing or empty username is reported first, then the password; success yields exactly the two values from the environment |
| Python.CredentialsAfterDefaulting | src/pds/roundup/_python.py:41-47 | after environment defaulting, credentials fail iff a PyPI variable was present but empty; with neither present they are ('pypi', 'secret') |
| Python.RegularFiles | src/pds/roundup/_python.py:119-120 | the upload list holds exactly dist/name for each listed name that is a regular file |
| Python.RegularFilesAppend | src/pds/roundup/_python.py:119-120 | the upload list keeps listing order: the files of a concatenated listing are the files of each part, in turn |
| Python.TwineArgv | src/pds/roundup/_python.py:104-120 | length 13 plus the file count; username at 3, password at 5, repository URL at 12, then the files in order |
| Python.ExecuteArtifactPublication | src/pds/roundup/_python.py:99-123 | missing credentials raise before anything runs; otherwise exactly one twine upload with the credentials, the stability-chosen URL and the regular files of dist |
| Python.ExecuteGitHubRelease | src/pds/roundup/_python.py:83-96 | with no token nothing runs and the step passes; otherwise it always fails: a failed fetch or listing raises its `ProcessError`; after both succeed, iterating over what `exec` returned (nothing) raises `TypeError`; the snapshot release is never issued |
| Python.ExecuteExtendsTrace | src/pds/roundup/_python.py:50-131 | every Python step leaves package.json alone and only appends to the trace |
| Python.Execute | src/pds/roundup/_python.py:50-131 | integration test and doc publication do nothing; unit test, docs and build each run exactly their one command (`python setup.py test`, `sphinx-build … docs/source docs/build`, `python setup.py bdist_wheel`); GitHub release and artifact publication behave as their own rows say |
| Maven.StepTable | src/pds/roundup/_maven.py:12-27 | the Maven table maps exactly the ten declared names; requirements goes to the Maven-local class, changeLog to the shared `ChangeLogStep`, and `_ChangeLogStep` is unused |
| Maven.Execute | src/pds/roundup/_maven.py:30-72 | every Maven step changes no state and passes |
| NodeJS.StepTable | src/pds/roundup/_nodejs.py:14-33 | the Node.js table covers every declared name and the four extra ones; requirements and null are shared, changeLog is the Node.js class |
| NodeJS.ReadPackageMetadata | src/pds/roundup/_nodejs.py:42-50 | yields the package.json map, or `RoundupError` when it cannot be read |
| NodeJS.CurrentVersion | src/pds/roundup/_nodejs.py:175-176 | the version entry; an unreadable file is a `RoundupError`, a missing key a `KeyError` |
| NodeJS.WriteVersionNumber | src/pds/roundup/_nodejs.py:52-63 | only the 'version' entry is replaced (or added); every other entry is preserved; no command runs |
| NodeJS.ScanTripleConsumes | src/pds/roundup/_nodejs.py:279 | a successful `(\d+)\.(\d+)\.(\d+)` match consumes at least five characters and leaves a suffix of the input |
| NodeJS.ScanNumberOfRun | src/pds/roundup/_nodejs.py:279 | one `\d+` group over a non-empty digit run followed by a non-digit reads exactly that run's value and leaves the rest |
| NodeJS.ScanNumberShape | src/pds/roundup/_nodejs.py:279 | conversely, every successful `\d+` splits the input into a non-empty digit run, whose value it reads, and a rest that does not start with a digit |
| NodeJS.ScanTripleOfParts | src/pds/roundup/_nodejs.py:279 | any three non-empty digit runs joined by dots match, whatever follows; followed by a non-digit they read as the runs' values (leading zeros allowed) with exactly that remainder |
| NodeJS.ScanTripleShape | src/pds/roundup/_nodejs.py:279 | every match has that shape: the input is three non-empty digit runs joined by dots plus a remainder not starting with a digit, and the parts are the runs' values |
| NodeJS.ScanDotted | src/pds/roundup/_nodejs.py:279 | a printed "M.N.P" followed by a non-digit is read back as exactly M, N, P and that remainder |
| NodeJS.MatchUnstable | src/pds/roundup/_nodejs.py:40 | the unstable pattern matches iff the M.N.P scan does and "-unstable" follows it, and then yields that scan |
| NodeJS.NextUnstableOfDotted | src/pds/roundup/_nodejs.py:243-247 | M.N.P-unstable, with anything after it, becomes M.N.(P+1)-unstable; trailing text is dropped |
| NodeJS.NextUnstableRepeats | src/pds/roundup/_nodejs.py:243-247 | the version one unstable publication writes is accepted by the next, which raises the micro part by one again |
| NodeJS.NextDevOfDotted | src/pds/roundup/_nodejs.py:279-287 | a version beginning M.N.P becomes M.(N+1).0 whatever P and the rest were |
| NodeJS.ReleaseThenNextDev | src/pds/roundup/_nodejs.py:146-154 | after a stable bump to M.N.P from a release tag, cleanup moves package.json to M.(N+1).0 |
| NodeJS.ReleaseTagWithoutMicro | src/pds/roundup/_nodejs.py:205-208 | for every major and minor, a release tag with no micro part yields the text "M.N.None", which is not an M.N.P version |
| NodeJS.ExecuteVersionBump | src/pds/roundup/_nodejs.py:127-154 | unstable: no effect. Stable: a failed tag lookup raises its `ProcessError`; an empty tag, a non-release tag or one without micro each raise their `RoundupError` after only the lookup has run, with package.json untouched; a valid tag issues the lookup and then labels the issues with M.N.P, whose failure raises; after a successful label the step passes if and only if package.json is readable, and then writes major.minor.micro from the tag |
| NodeJS.ReleaseMatch | src/pds/roundup/_nodejs.py:137-151 | a release tag is accepted if and only if the lookup succeeds, the tag is non-empty, it matches the release pattern and carries a micro part; the match is the pattern's |
| NodeJS.ExecuteVersionCommit | src/pds/roundup/_nodejs.py:157-163 | unstable: no effect; stable: exactly one commit of package.json |
| NodeJS.ExecuteBuild | src/pds/roundup/_nodejs.py:166-178 | stable: only the build runs and the version is not written; unstable: the version becomes version + "-unstable", then the effect is exactly running the build command on the written state; read errors propagate with nothing run |
| NodeJS.ExecuteArtifactPublication | src/pds/roundup/_nodejs.py:229-253 | stable: a failed publish is re-raised. Unstable: a failed command is never reported, but read errors and a malformed version are; a well-formed version is bumped to M.N.(P+1)-unstable, the bump commit is issued, the publish follows only if the commit succeeded, and the step passes |
| NodeJS.PublishAttempt | src/pds/roundup/_nodejs.py:232-250 | the guarded part of publication extends the trace; stable it is exactly the publish command, unstable it is `PublishUnstable` |
| NodeJS.PublishUnstable | src/pds/roundup/_nodejs.py:241-249 | read errors and a malformed version fail with nothing run; a well-formed M.N.P-unstable is written as M.N.(P+1)-unstable and then committed and published as `CommitAndPublish` says |
| NodeJS.CommitAndPublish | src/pds/roundup/_nodejs.py:247-249 | the bump commit runs first; its failure raises its `ProcessError` and nothing more runs; on success the publish runs and the outcome is the publish's |
| NodeJS.TagRelease | src/pds/roundup/_nodejs.py:194-211 | a failed tag lookup raises its `ProcessError`; an empty or non-release tag skips re-tagging without error; otherwise the effect is exactly the tag and push commands for v{M}.{N}.{P} run in order after the lookup, stopping at the first failure; package.json is untouched |
| NodeJS.ExecuteGitHubRelease | src/pds/roundup/_nodejs.py:213-226 | with no token nothing runs; otherwise dev tags are pruned first and a failed prune raises; after it, a stable release re-tags and then runs the release helper, an unstable one runs the snapshot helper and then prunes release tags; package.json is untouched |
| NodeJS.BumpToNextDev | src/pds/roundup/_nodejs.py:278-288 | a version without the M.N.P prefix is left as it is and passes; otherwise exactly M.(N+1).0 is written and then the effect is exactly one commit of package.json whose message names M.(N+1).P, with the old micro |
| NodeJS.ExecuteCleanup | src/pds/roundup/_nodejs.py:266-288 | unstable: no effect. Stable: a failed tag lookup raises its `ProcessError` with only the lookup run; an empty tag raises `RoundupError` after only the lookup; with a tag, the remote tag is deleted, a failed push raises, and after a successful push the version moves on exactly as `BumpToNextDev` says; package.json either stays or holds exactly the next dev version; a version without the prefix is never changed and never causes a `RoundupError` |
| NodeJS.ExecutePreparation | src/pds/roundup/_nodejs.py:66-101 | git is configured first and a failed configuration raises; a missing npm token then raises `RoundupError` after only that; with the token, `npm install` runs next |
| NodeJS.ExecuteChangeLog | src/pds/roundup/_nodejs.py:291-295 | dev tags are pruned first; a failed prune raises, otherwise the shared changelog step runs from there |
| NodeJS.ExecuteExtendsTrace | src/pds/roundup/_nodejs.py:106-124 | every Node.js step only appends to the trace |
| NodeJS.Execute | src/pds/roundup/_nodejs.py:106-124 | the integration test does nothing; unit test runs `npm test`, docs `npm run jsdoc`, doc publication delegates to the shared step, and every other class behaves as its own row says |
| Contexts.StepTable | src/pds/roundup/context.py:15-17 | Python and Maven tables hold exactly the declared names, Node.js at least those; null always maps to the null step |
| Contexts.New | src/pds/roundup/context.py:9-10 | construction stores `cwd` and `environ` unchanged, beside the class's table |
| Contexts.CreateStep | src/pds/roundup/context.py:15-17 | a step exists iff the name is a key of the table; it has the table's class and is bound to the given assembly |
| Contexts.CreateStepDeclared | src/pds/roundup/context.py:15-17 | every declared name yields a step in every context |
| Contexts.CreateStepExtraName | src/pds/roundup/context.py:15-17 | the four Node.js-only names yield no step in Python or Maven contexts |
| Contexts.ReprHidesEnviron | src/pds/roundup/context.py:12-13 | the printed form depends on the number of environment entries, not their contents |
| Package.ContextFactories | src/pds/roundup/__init__.py:10-23 | exactly four marker keys; setup.cfg and setup.py select Python, pom.xml and project.xml Maven; no key selects Node.js; package.json is not a key |
| Package.FirstMarker | src/pds/roundup/context.py:22-25 | the first position holding a marker, with none before it; none iff no entry is a marker |
| Package.Detect | src/pds/roundup/context.py:19-28 | detection fails iff no entry is a marker, and then with the unbound `context`; otherwise the context is the kind the first marker's factory names, built from the given cwd and environ |
| Package.DetectFirstMarker | src/pds/roundup/context.py:23-27 | when entry i is a marker and none precedes it, the result is the context of entry i's factory (so `pom.xml` first gives Maven, `setup.py` first gives Python) |
| Package.Create | src/pds/roundup/context.py:19-28 | the scan with early exit computes exactly `Detect`, so it yields the first marker's context |
| Package.DetectKeepsArguments | src/pds/roundup/context.py:26-27 | the selected context is built from the `cwd` and `environ` passed in |
| Package.DetectNeverNodeJS | src/pds/roundup/__init__.py:18-23 | detection never chooses the Node.js context |
| Package.DetectIgnoresLaterEntries | src/pds/roundup/context.py:22-25 | once a marker has been listed, entries after it never change the result |
| Package.ReadVersion | src/pds/roundup/__init__.py:26-32 | the version text has no surrounding whitespace, and is empty iff the file is all whitespace |
| Package.ReadVersionPadded | src/pds/roundup/__init__.py:32 | whitespace around the version text, such as a trailing newline, is dropped |
| Assemblies.NewAssembly | src/pds/roundup/assembly.py:11-12 | stores context and step names as given; not stable |
| Assemblies.DefaultAssembly | src/pds/roundup/assembly.py:11-12 | with the default step list, the assembly has no step names and instantiates no steps; not stable |
| Assemblies.NoOpAssembly | src/pds/roundup/assembly.py:34-36 | its list is exactly `[null]`; not stable |
| Assemblies.PDSAssembly | src/pds/roundup/assembly.py:39-53 | the nine PDS names; not stable |
| Assemblies.StablePDSAssembly | src/pds/roundup/assembly.py:56-58 | the nine PDS names; the only stable assembly |
| Assemblies.UnstablePDSAssembly | src/pds/roundup/assembly.py:61-62 | the nine PDS names; not stable |
| Assemblies.PdsStepsAreMembersAfterNull | src/pds/roundup/assembly.py:40-50 | the PDS list is the declared names from unitTest to docPublication, in declaration order, without repeats |
| Assemblies.ExecuteExtendsTrace | src/pds/roundup/assembly.py:27-28 | executing any step, whatever its class, only appends to the trace |
| Assemblies.Execute | src/pds/roundup/step.py:16-17 | dispatch on the step's class: the base step fails, the null step does nothing; a shared, Python or Node.js step executes that class's own behaviour with the assembly's stability and the context's `cwd` and environment; a Maven step passes and changes nothing |
| Assemblies.InstantiateNames | src/pds/roundup/assembly.py:19-25 | at most one step per name, each bound to the assembly and of a class from the context's table |
| Assemblies.InstantiateAppend | src/pds/roundup/assembly.py:19-25 | instantiation keeps order: a concatenation instantiates to the concatenation of its parts' steps |
| Assemblies.InstantiateTotal | src/pds/roundup/assembly.py:19-25 | when the table knows every name, step i is the table's class for name i, bound to the assembly |
| Assemblies.InstantiateSkipsUnknown | src/pds/roundup/assembly.py:21-25 | names unknown to the table are skipped, not errors |
| Assemblies.PdsInstantiatesAll | src/pds/roundup/assembly.py:19-25 | a stable or unstable PDS assembly on any context gets all nine steps in list order |
| Assemblies.NoOpInstantiatesNull | src/pds/roundup/assembly.py:34-36 | a no-op assembly gets exactly one null step |
| Assemblies.RunSteps | src/pds/roundup/assembly.py:27-28 | no steps: nothing runs and the run passes; at most all steps run; on success all ran; a failure ran at least one; the trace only grows |
| Assemblies.RunStepsSingle | src/pds/roundup/assembly.py:27-28 | a single step executes once on the given state and the run ends with that step's state and outcome |
| Assemblies.RunStepsFirst | src/pds/roundup/assembly.py:27-28 | the first step executes on the starting state; its failure ends the run, otherwise the remaining steps run on the state it left |
| Assemblies.StepPassedInPassingRun | src/pds/roundup/assembly.py:27-28 | in a passing run every step executed and passed on the state its predecessors left |
| Assemblies.EveryStepPassedRunPasses | src/pds/roundup/assembly.py:27-28 | when every step passes on the state its predecessors left, the run passes |
| Assemblies.RunStepsPassesIff | src/pds/roundup/assembly.py:27-28 | a run passes if and only if every step passes on the state its predecessors left |
| Assemblies.FailurePersists | src/pds/roundup/assembly.py:27-28 | once a prefix has failed, no later step runs |
| Assemblies.FailFast | src/pds/roundup/assembly.py:27-28 | a failed run stopped at its last step: every earlier step passed, that one failed with the run's error, and its effects are kept |
| Assemblies.RunStepsAppend | src/pds/roundup/assembly.py:27-28 | running a concatenation runs the first part, then the second from where it left off if the first passed |
| Assemblies.Roundup | src/pds/roundup/assembly.py:17-28 | every step is instantiated before any runs, and the run is exactly `RunSteps` of those steps in order; it passes if and only if every step passes on the state its predecessors left |
| Assemblies.ExecuteSteps | src/pds/roundup/assembly.py:27-28 | the execution loop, with its early exit on the first failure, computes exactly `RunSteps`, and passes if and only if every step passes on the state its predecessors left |
| Detectives.FindFile | src/pds/roundup/_detectives.py:16-22 | workspace/fn iff that path is a regular file, else None |
| Detectives.VersionFileNameIgnoresCase | src/pds/roundup/_detectives.py:44 | a name matches iff it has eleven characters that lower-case to "version.txt" |
| Detectives.FirstVersionFile | src/pds/roundup/_detectives.py:43-47 | within one directory, the first matching name, with none before it |
| Detectives.Located | src/pds/roundup/_detectives.py:41-49 | None iff no walked directory has a match |
| Detectives.LastMatchWins | src/pds/roundup/_detectives.py:42-47 | the result is the match of the last visited directory that has one |
| Detectives.LocatedIsAMatch | src/pds/roundup/_detectives.py:42-47 | a located path is a matching name joined to its walked directory |
| Detectives.LocateFile | src/pds/roundup/_detectives.py:35-49 | `ValueError` when workspace/src is not a directory; otherwise exactly `Located` of the walk |
| Detectives.Detect | src/pds/roundup/_detectives.py:24-57 | the base detective always fails; the text-file detective returns the located file's stripped text, or None |

## Left out

- Running commands, reading and writing files, logging, `sys.exit` and `main.py` are not part of this model.
  - Directory listings, `os.walk`, `isfile`/`isdir` and file contents are inputs. A missing directory is an empty listing: `os.listdir` raising `FileNotFoundError` for a missing `dist` directory (`Python.DistFiles`, _python.py:119-120) or a missing working directory (context.py:23) is not modelled.
  - Commands are trace entries judged by an oracle over the command history.
- `NodeJS.ExecutePreparation`: writing `.npmrc`, extending `PATH` and removing node_modules are not modelled.
- The helpers the source imports but does not define are single opaque commands. They are `invoke`, `invokeGIT`, `commit`, `delete_tags`, `git_config`, `add_version_label_to_open_bugs`, `RequirementsStep` and `DocPublicationStep`.
- Every failure of such a command is one `ProcessError`, which the Node.js publication step treats as `InvokedProcessError`.
- Two imported names are not defined in the files modelled:
  - `InvokedProcessError` is imported from `.errors` at `_nodejs.py` line 6 and `main.py` line 8, but `errors.py` defines only `RoundupError` and `MissingEnvVarError`;
  - `NullStep` is imported from `.step` at `_nodejs.py` line 7, but `step.py` does not define it.
  The model uses `ProcessError` for the first and the null step of `util.py` for the second.
- `getToken` is not defined in the files modelled. It is taken to read `ADMIN_GITHUB_TOKEN`, as the shared changelog step does.
- `TAG_RE` is not defined in the files modelled. It is an abstract parser `Host.tagRe` returning major, minor and an optional micro.
- Context constructor arity differs between files. `Context.__init__` takes `(cwd, environ)`, but the Maven and Node.js contexts pass three arguments and `main.py` passes three to `create`. Every context is modelled with `(cwd, environ)`.
- Syntax and import errors are not modelled:
  - `_maven.py` line 6 has a trailing comma with nothing after it, and never imports `ChangeLogStep`;
  - `_nodejs.py` imports `ChangeLogStep` as `BaseChangeLogStep` from `.step`, which does not define it.
  The model uses the shared changelog step of `util.py` in both places.
- The step names `preparation`, `versionBump`, `versionCommit` and `cleanup` are used by the Node.js table but missing from the enumeration. They are extra constructors outside the ten declared members.
- `Strings.Lower` and `\d` are ASCII only. Python's Unicode case mapping and Unicode digits are not modelled.
- `Assembly.__repr__` is not modelled. Only logging uses it.
- package.json values are strings. Non-string JSON values, key sorting and indentation are not modelled.
- `NodeJS.ExecutePreparation`: reads `NPMJS_COM_TOKEN` from the context's environment, where the source calls `os.getenv` (`_nodejs.py` line 69). The two agree, because `main.py` line 85 builds the context from `populateEnvVars(os.environ)`, which copies every variable and only adds the PyPI defaults.

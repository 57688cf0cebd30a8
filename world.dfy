/**
 * The world the release steps act on: a host that answers commands and
 * file-system questions, and the state a run changes (the commands issued so
 * far and the contents of package.json).
 */
module World {
  import opened Wrappers
  import opened Commands
  import opened Errors

  /** An environment-variable snapshot (`os.environ` or `Context.environ`). */
  type Environ = map<string, string>

  /**
   * `shell` answers a command given the commands issued before it; `listDir` and
   * `isFile` stand for `os.listdir` and `os.path.isfile`; `tagRe` is the
   * release-tag pattern, which the model leaves abstract.
   */
  datatype Host = Host(
    shell: (seq<Command>, Command) -> Reply,
    listDir: string -> seq<string>,
    isFile: string -> bool,
    tagRe: string -> Option<TagMatch>)

  /** package.json is a string map; `None` stands for a file that cannot be read. */
  datatype State = State(trace: seq<Command>, packageJson: Option<map<string, string>>)

  /** The state after a step and whether it returned or raised. */
  datatype Effect = Effect(state: State, outcome: Outcome<Error>)

  /** `env.get(key)`. */
  function Get(env: Environ, key: string): Option<string> {
    if key in env then Some(env[key]) else None
  }

  /** Python's truth test on an optional string: present and non-empty. */
  predicate Truthy(v: Option<string>) {
    v.Some? && v.value != ""
  }

  /** Issue `cmd`; it raises `ProcessError(cmd)` when the host reports a failure. */
  function Run(h: Host, st: State, cmd: Command): (e: Effect)
    ensures e.state == st.(trace := st.trace + [cmd])
    ensures e.outcome.Pass? <==> h.shell(st.trace, cmd).Done?
    ensures e.outcome.Fail? ==> e.outcome.error == ProcessError(cmd)
  {
    var st' := st.(trace := st.trace + [cmd]);
    if h.shell(st.trace, cmd).Done? then Effect(st', Pass) else Effect(st', Fail(ProcessError(cmd)))
  }

  /** Issue `cmd` and return what it printed. */
  function Query(h: Host, st: State, cmd: Command): (r: (State, Result<string, Error>))
    ensures r.0 == st.(trace := st.trace + [cmd])
    ensures r.1.Ok? <==> h.shell(st.trace, cmd).Done?
    ensures r.1.Ok? ==> r.1.value == h.shell(st.trace, cmd).stdout
    ensures r.1.Err? ==> r.1.error == ProcessError(cmd)
  {
    var st' := st.(trace := st.trace + [cmd]);
    match h.shell(st.trace, cmd)
    case Done(out) => (st', Ok(out))
    case Failed => (st', Err(ProcessError(cmd)))
  }

  /** Issue `cmds` in order, stopping at the first one that fails. */
  function RunAll(h: Host, st: State, cmds: seq<Command>): (e: Effect)
    ensures e.state.packageJson == st.packageJson
    ensures st.trace <= e.state.trace <= st.trace + cmds
    ensures e.outcome.Pass? ==> e.state.trace == st.trace + cmds
    ensures e.outcome.Fail? ==>
              |e.state.trace| > |st.trace| && e.outcome.error == ProcessError(e.state.trace[|e.state.trace| - 1])
    decreases |cmds|
  {
    if cmds == [] then Effect(st, Pass)
    else
      var e := Run(h, st, cmds[0]);
      if e.outcome.Fail? then e
      else
        var r := RunAll(h, e.state, cmds[1..]);
        assert st.trace + [cmds[0]] + cmds[1..] == st.trace + cmds;
        r
  }

  /** `RunAll` passes iff every command succeeds after those before it. */
  lemma {:induction false} RunAllPassesIff(h: Host, st: State, cmds: seq<Command>)
    ensures RunAll(h, st, cmds).outcome.Pass? <==> forall i :: 0 <= i < |cmds| ==> Answered(h, st.trace, cmds, i)
    decreases |cmds|
  {
    if cmds != [] {
      var st1 := RunAllFirst(h, st, cmds);
      if h.shell(st.trace, cmds[0]).Done? {
        var rest := cmds[1..];
        RunAllPassesIff(h, st1, rest);
        if RunAll(h, st1, rest).outcome.Pass? {
          forall i | 0 <= i < |cmds| ensures Answered(h, st.trace, cmds, i) {
            if i > 0 {
              AnsweredShift(h, st.trace, cmds, i);
            }
          }
        } else {
          var j :| 0 <= j < |rest| && !Answered(h, st1.trace, rest, j);
          AnsweredShift(h, st.trace, cmds, j + 1);
        }
      }
    }
  }

  /** A failed `RunAll` issued the commands up to the first one that failed, and no more. */
  lemma {:induction false} RunAllFailsAtFirstFailure(h: Host, st: State, cmds: seq<Command>)
    ensures var e := RunAll(h, st, cmds);
            e.outcome.Fail? ==>
              var k := |e.state.trace| - |st.trace| - 1;
              && 0 <= k < |cmds|
              && (forall i :: 0 <= i < k ==> Answered(h, st.trace, cmds, i))
              && !Answered(h, st.trace, cmds, k)
    decreases |cmds|
  {
    if cmds != [] {
      var st1 := RunAllFirst(h, st, cmds);
      if h.shell(st.trace, cmds[0]).Done? {
        var rest := cmds[1..];
        var r := RunAll(h, st1, rest);
        RunAllFailsAtFirstFailure(h, st1, rest);
        if r.outcome.Fail? {
          var k := |r.state.trace| - |st1.trace| - 1;
          assert RunAll(h, st, cmds) == r;
          assert |r.state.trace| - |st.trace| - 1 == k + 1;
          AnsweredShift(h, st.trace, cmds, k + 1);
          forall i | 0 <= i < k + 1 ensures Answered(h, st.trace, cmds, i) {
            if i > 0 {
              AnsweredShift(h, st.trace, cmds, i);
            }
          }
        }
      }
    }
  }

  /** One step of `RunAll`: the first command decides whether the rest run. */
  lemma RunAllFirst(h: Host, st: State, cmds: seq<Command>) returns (st1: State)
    requires |cmds| > 0
    ensures st1 == st.(trace := st.trace + [cmds[0]])
    ensures Answered(h, st.trace, cmds, 0) == h.shell(st.trace, cmds[0]).Done?
    ensures h.shell(st.trace, cmds[0]).Done? ==> RunAll(h, st, cmds) == RunAll(h, st1, cmds[1..])
    ensures h.shell(st.trace, cmds[0]).Failed? ==> RunAll(h, st, cmds) == Effect(st1, Fail(ProcessError(cmds[0])))
  {
    st1 := st.(trace := st.trace + [cmds[0]]);
    assert st.trace + cmds[..0] == st.trace;
  }

  /** Command `i` of `cmds`, issued after `trace` and the commands before it, succeeded. */
  predicate Answered(h: Host, trace: seq<Command>, cmds: seq<Command>, i: nat)
    requires i < |cmds|
  {
    h.shell(trace + cmds[..i], cmds[i]).Done?
  }

  /** After the first command, command `i` is answered as it was in the whole sequence. */
  lemma AnsweredShift(h: Host, trace: seq<Command>, cmds: seq<Command>, i: nat)
    requires 0 < i < |cmds|
    ensures Answered(h, trace + [cmds[0]], cmds[1..], i - 1) == Answered(h, trace, cmds, i)
  {
    assert trace + [cmds[0]] + cmds[1..][..i - 1] == trace + cmds[..i];
  }


  /** Run `cmd` after `e` unless `e` already raised. */
  function AndThen(h: Host, e: Effect, cmd: Command): (r: Effect)
    ensures e.outcome.Fail? ==> r == e
    ensures e.outcome.Pass? ==> r == Run(h, e.state, cmd)
  {
    if e.outcome.Fail? then e else Run(h, e.state, cmd)
  }
}

/**
 * Assemblies (src/pds/roundup/assembly.py): a context and the ordered list of step
 * names to round up. `Roundup` first instantiates every supported step, then runs
 * them in order and stops at the first failure.
 */
module Assemblies {
  import opened Wrappers
  import opened Errors
  import opened World
  import opened Steps
  import opened Contexts
  import Util
  import Python
  import Maven
  import NodeJS

  /** The assembly classes: the base one and its four subclasses. */
  datatype Variant = Plain | NoOp | PDS | StablePDS | UnstablePDS

  /** An assembly: its class, its context and the step names it asks for. */
  datatype Assembly = Assembly(variant: Variant, context: Context, stepNames: seq<StepName>)

  /** `PDSAssembly.pdsSteps`. */
  const PdsSteps: seq<StepName> :=
    [UnitTest, IntegrationTest, ChangeLog, Requirements, Docs, Build, GitHubRelease, ArtifactPublication, DocPublication]

  /** `isStable`: true for `StablePDSAssembly` alone. */
  predicate IsStable(a: Assembly) {
    a.variant == StablePDS
  }

  /** `Assembly(context, stepNames)`: both are stored as given. */
  function NewAssembly(context: Context, stepNames: seq<StepName>): (a: Assembly)
    ensures a.context == context && a.stepNames == stepNames && !IsStable(a)
  {
    Assembly(Plain, context, stepNames)
  }

  /** `Assembly(context)`: the default step list is empty, so nothing is instantiated. */
  function DefaultAssembly(context: Context): (a: Assembly)
    ensures a.context == context && a.stepNames == [] && !IsStable(a)
    ensures Instantiate(a) == []
  {
    NewAssembly(context, [])
  }

  /** `NoOpAssembly(context)`: only the null step. */
  function NoOpAssembly(context: Context): (a: Assembly)
    ensures a.context == context && a.stepNames == [Null] && !IsStable(a)
  {
    Assembly(NoOp, context, [Null])
  }

  /** `PDSAssembly(context)`: the nine PDS steps. */
  function PDSAssembly(context: Context): (a: Assembly)
    ensures a.context == context && a.stepNames == PdsSteps && !IsStable(a)
  {
    Assembly(PDS, context, PdsSteps)
  }

  /** `StablePDSAssembly(context)`: the nine PDS steps, stable. */
  function StablePDSAssembly(context: Context): (a: Assembly)
    ensures a.context == context && a.stepNames == PdsSteps && IsStable(a)
  {
    Assembly(StablePDS, context, PdsSteps)
  }

  /** `UnstablePDSAssembly(context)`: the nine PDS steps, not stable. */
  function UnstablePDSAssembly(context: Context): (a: Assembly)
    ensures a.context == context && a.stepNames == PdsSteps && !IsStable(a)
  {
    Assembly(UnstablePDS, context, PdsSteps)
  }

  /** The PDS list is the declared step names from `unitTest` to `docPublication`, in order. */
  lemma PdsStepsAreMembersAfterNull()
    ensures |PdsSteps| == 9 && PdsSteps == Members()[1..]
    ensures forall i, j :: 0 <= i < j < |PdsSteps| ==> PdsSteps[i] != PdsSteps[j]
  {
  }

  /** `step.execute()`, dispatched on the step's class; every step reads its assembly's context. */
  function Execute(step: Step<Assembly>, h: Host, st: State): (e: Effect)
    ensures step.cls == BaseStep ==> e == Effect(st, Fail(NotImplementedError))
    ensures step.cls == NullStep ==> e == Effect(st, Pass)
    ensures step.cls == ChangeLogStep ==> e == Util.ExecuteChangeLog(step.assembly.context.environ, h, st)
    ensures step.cls == RequirementsStep ==> e == Util.ExecuteRequirements(h, st)
    ensures step.cls.Python? ==>
              e == Python.Execute(step.cls.py, IsStable(step.assembly), step.assembly.context.cwd,
                                  step.assembly.context.environ, h, st)
    ensures step.cls.Maven? ==> e == Effect(st, Pass)
    ensures step.cls.NodeJS? ==>
              e == NodeJS.Execute(step.cls.node, IsStable(step.assembly), step.assembly.context.environ, h, st)
  {
    var c := step.assembly.context;
    var stable := IsStable(step.assembly);
    match step.cls
    case BaseStep => ExecuteBase(st)
    case NullStep => Util.ExecuteNull(st)
    case ChangeLogStep => Util.ExecuteChangeLog(c.environ, h, st)
    case RequirementsStep => Util.ExecuteRequirements(h, st)
    case Python(p) => Python.Execute(p, stable, c.cwd, c.environ, h, st)
    case Maven(m) => Maven.Execute(m, st)
    case NodeJS(n) => NodeJS.Execute(n, stable, c.environ, h, st)
  }

  /** Executing any step only appends to the trace. */
  lemma ExecuteExtendsTrace(step: Step<Assembly>, h: Host, st: State)
    ensures st.trace <= Execute(step, h, st).state.trace
  {
    var c := step.assembly.context;
    var stable := IsStable(step.assembly);
    match step.cls
    case BaseStep =>
    case NullStep =>
    case ChangeLogStep =>
    case RequirementsStep =>
    case Python(p) => Python.ExecuteExtendsTrace(p, stable, c.cwd, c.environ, h, st);
    case Maven(m) =>
    case NodeJS(n) => NodeJS.ExecuteExtendsTrace(n, stable, c.environ, h, st);
  }

  // ---------------------------------------------------------------------------
  // Phase one: instantiation
  // ---------------------------------------------------------------------------

  /** The steps `createStep` yields for `names`, in order, with unsupported names skipped. */
  function InstantiateNames(c: Context, names: seq<StepName>, a: Assembly): (steps: seq<Step<Assembly>>)
    ensures |steps| <= |names|
    ensures forall s :: s in steps ==> s.assembly == a && s.cls in c.steps.Values
  {
    if names == [] then []
    else
      var last := names[|names| - 1];
      InstantiateNames(c, names[..|names| - 1], a) + (if last in c.steps then [Step(c.steps[last], a)] else [])
  }

  /** The steps an assembly's roundup runs. */
  function Instantiate(a: Assembly): seq<Step<Assembly>> {
    InstantiateNames(a.context, a.stepNames, a)
  }

  /** Instantiation keeps order: the steps for a concatenation are the steps for each part, in turn. */
  lemma {:induction false} InstantiateAppend(c: Context, x: seq<StepName>, y: seq<StepName>, a: Assembly)
    ensures InstantiateNames(c, x + y, a) == InstantiateNames(c, x, a) + InstantiateNames(c, y, a)
    decreases |y|
  {
    if y == [] {
      assert x + y == x;
    } else {
      var y0 := y[..|y| - 1];
      assert (x + y)[..|x + y| - 1] == x + y0;
      InstantiateAppend(c, x, y0, a);
    }
  }

  /** When the table knows every name, one step is made per name, bound to the assembly. */
  lemma {:induction false} InstantiateTotal(c: Context, names: seq<StepName>, a: Assembly)
    requires forall n :: n in names ==> n in c.steps
    ensures |InstantiateNames(c, names, a)| == |names|
    ensures forall i :: 0 <= i < |names| ==> InstantiateNames(c, names, a)[i] == Step(c.steps[names[i]], a)
  {
    if names != [] {
      var init := names[..|names| - 1];
      assert forall n :: n in init ==> n in names;
      InstantiateTotal(c, init, a);
    }
  }

  /** Names the table does not know contribute nothing, and are not an error. */
  lemma {:induction false} InstantiateSkipsUnknown(c: Context, names: seq<StepName>, a: Assembly)
    requires forall n :: n in names ==> n !in c.steps
    ensures InstantiateNames(c, names, a) == []
  {
    if names != [] {
      var init := names[..|names| - 1];
      assert forall n :: n in init ==> n in names;
      InstantiateSkipsUnknown(c, init, a);
    }
  }

  /** A PDS assembly on any context instantiates all nine steps, in the list's order. */
  lemma PdsInstantiatesAll(kind: ContextKind, cwd: string, environ: Environ, stable: bool)
    ensures var c := New(kind, cwd, environ);
            var a := if stable then StablePDSAssembly(c) else UnstablePDSAssembly(c);
            && |Instantiate(a)| == 9
            && forall i :: 0 <= i < 9 ==> Instantiate(a)[i] == Step(c.steps[PdsSteps[i]], a)
  {
    var c := New(kind, cwd, environ);
    var a := if stable then StablePDSAssembly(c) else UnstablePDSAssembly(c);
    PdsStepsAreMembersAfterNull();
    InstantiateTotal(c, PdsSteps, a);
  }

  /** A no-op assembly on any context instantiates exactly one null step. */
  lemma NoOpInstantiatesNull(c: Context)
    requires c == New(c.kind, c.cwd, c.environ)
    ensures Instantiate(NoOpAssembly(c)) == [Step(NullStep, NoOpAssembly(c))]
  {
    assert [Null][..0] == [];
  }

  // ---------------------------------------------------------------------------
  // Phase two: execution
  // ---------------------------------------------------------------------------

  /** How a run of steps ended: how many steps ran, the world afterwards, and the outcome. */
  datatype Run = Run(ran: nat, state: State, outcome: Outcome<Error>)

  /**
   * Running `steps` in order from `st`: each runs once on the state its predecessor left;
   * the first failure ends the run, and what already happened stays.
   */
  function RunSteps(steps: seq<Step<Assembly>>, h: Host, st: State): (r: Run)
    ensures steps == [] ==> r == Run(0, st, Pass)
    ensures r.ran <= |steps|
    ensures r.outcome.Pass? ==> r.ran == |steps|
    ensures r.outcome.Fail? ==> r.ran >= 1
    ensures st.trace <= r.state.trace
  {
    if steps == [] then Run(0, st, Pass)
    else
      var prev := RunSteps(steps[..|steps| - 1], h, st);
      if prev.outcome.Fail? then prev
      else
        var e := Execute(steps[|steps| - 1], h, prev.state);
        ExecuteExtendsTrace(steps[|steps| - 1], h, prev.state);
        Run(|steps|, e.state, e.outcome)
  }

  /** Once a prefix of the steps has failed, the rest never run. */
  lemma {:induction false} FailurePersists(steps: seq<Step<Assembly>>, k: nat, h: Host, st: State)
    requires k <= |steps| && RunSteps(steps[..k], h, st).outcome.Fail?
    ensures RunSteps(steps, h, st) == RunSteps(steps[..k], h, st)
    decreases |steps| - k
  {
    if k < |steps| {
      var init := steps[..|steps| - 1];
      assert init[..k] == steps[..k];
      FailurePersists(init, k, h, st);
    } else {
      assert steps[..k] == steps;
    }
  }

  /**
   * A failed run stopped at step `ran`: every step before it passed, it failed with the
   * run's error, and the final state is the one it left.
   */
  lemma {:induction false} FailFast(steps: seq<Step<Assembly>>, h: Host, st: State)
    requires RunSteps(steps, h, st).outcome.Fail?
    ensures var r := RunSteps(steps, h, st);
            var before := RunSteps(steps[..r.ran - 1], h, st);
            && before.outcome.Pass?
            && Execute(steps[r.ran - 1], h, before.state) == Effect(r.state, r.outcome)
  {
    var init := steps[..|steps| - 1];
    var prev := RunSteps(init, h, st);
    if prev.outcome.Fail? {
      FailFast(init, h, st);
      assert init[..prev.ran - 1] == steps[..prev.ran - 1];
    } else {
      assert steps[..|steps| - 1] == init;
    }
  }

  /** Running a concatenation runs the first part, then, if it passed, the second from where it left off. */
  lemma {:induction false} RunStepsAppend(x: seq<Step<Assembly>>, y: seq<Step<Assembly>>, h: Host, st: State)
    ensures var rx := RunSteps(x, h, st);
            var ry := RunSteps(y, h, rx.state);
            RunSteps(x + y, h, st)
              == if rx.outcome.Fail? then rx else Run(|x| + ry.ran, ry.state, ry.outcome)
    decreases |y|
  {
    if y == [] {
      assert x + y == x;
    } else {
      var y0 := y[..|y| - 1];
      assert (x + y)[..|x + y| - 1] == x + y0;
      RunStepsAppend(x, y0, h, st);
    }
  }

  /** A single step runs once on the given state, and the run ends as that step does. */
  lemma RunStepsSingle(s: Step<Assembly>, h: Host, st: State)
    ensures var e := Execute(s, h, st);
            RunSteps([s], h, st) == Run(1, e.state, e.outcome)
  {
    assert [s][..0] == [];
  }

  /**
   * Read from the front: the first step runs on `st`; if it fails the run ends there,
   * otherwise the remaining steps run on the state it left.
   */
  lemma RunStepsFirst(steps: seq<Step<Assembly>>, h: Host, st: State)
    requires |steps| > 0
    ensures var e := Execute(steps[0], h, st);
            var rest := RunSteps(steps[1..], h, e.state);
            RunSteps(steps, h, st)
              == if e.outcome.Fail? then Run(1, e.state, e.outcome) else Run(1 + rest.ran, rest.state, rest.outcome)
  {
    RunStepsSingle(steps[0], h, st);
    RunStepsAppend([steps[0]], steps[1..], h, st);
    assert [steps[0]] + steps[1..] == steps;
  }

  /** Step `i` passes when executed on the state the steps before it left. */
  predicate StepPasses(steps: seq<Step<Assembly>>, h: Host, st: State, i: nat)
    requires i < |steps|
  {
    Execute(steps[i], h, RunSteps(steps[..i], h, st).state).outcome.Pass?
  }

  /** Whether step `i` passes does not depend on the steps after it. */
  lemma StepPassesPrefix(steps: seq<Step<Assembly>>, h: Host, st: State, k: nat, i: nat)
    requires i < k <= |steps|
    ensures StepPasses(steps[..k], h, st, i) == StepPasses(steps, h, st, i)
  {
    assert steps[..k][..i] == steps[..i];
  }

  /** In a passing run, step `i` passed on the state the steps before it left. */
  lemma StepPassedInPassingRun(steps: seq<Step<Assembly>>, h: Host, st: State, i: nat)
    requires i < |steps| && RunSteps(steps, h, st).outcome.Pass?
    ensures StepPasses(steps, h, st, i)
  {
    var upTo := steps[..i + 1];
    if RunSteps(upTo, h, st).outcome.Fail? {
      FailurePersists(steps, i + 1, h, st);
      assert false;
    }
    assert upTo[..i] == steps[..i];
  }

  /** When every step passes on the state its predecessors left, the run passes. */
  lemma {:induction false} EveryStepPassedRunPasses(steps: seq<Step<Assembly>>, h: Host, st: State)
    requires forall i :: 0 <= i < |steps| ==> StepPasses(steps, h, st, i)
    ensures RunSteps(steps, h, st).outcome.Pass?
  {
    if steps != [] {
      var n := |steps| - 1;
      forall i | 0 <= i < n
        ensures StepPasses(steps[..n], h, st, i)
      {
        StepPassesPrefix(steps, h, st, n, i);
      }
      EveryStepPassedRunPasses(steps[..n], h, st);
      assert StepPasses(steps, h, st, n);
    }
  }

  /** A run passes if and only if every step passes on the state its predecessors left. */
  lemma RunStepsPassesIff(steps: seq<Step<Assembly>>, h: Host, st: State)
    ensures RunSteps(steps, h, st).outcome.Pass? <==> forall i :: 0 <= i < |steps| ==> StepPasses(steps, h, st, i)
  {
    if RunSteps(steps, h, st).outcome.Pass? {
      forall i | 0 <= i < |steps|
        ensures StepPasses(steps, h, st, i)
      {
        StepPassedInPassingRun(steps, h, st, i);
      }
    } else if forall i :: 0 <= i < |steps| ==> StepPasses(steps, h, st, i) {
      EveryStepPassedRunPasses(steps, h, st);
    }
  }

  /**
   * `Assembly.roundup`: instantiate every step first, then execute them in order,
   * stopping at the first failure. Neither the assembly nor its context changes.
   */
  method Roundup(a: Assembly, h: Host, st: State) returns (steps: seq<Step<Assembly>>, r: Run)
    ensures steps == Instantiate(a)
    ensures r == RunSteps(steps, h, st)
    ensures r.outcome.Pass? <==> forall i :: 0 <= i < |steps| ==> StepPasses(steps, h, st, i)
  {
    steps := [];
    for i := 0 to |a.stepNames|
      invariant steps == InstantiateNames(a.context, a.stepNames[..i], a)
    {
      var step := CreateStep(a.context, a.stepNames[i], a);
      if step.Some? {
        steps := steps + [step.value];
      }
      assert a.stepNames[..i + 1][..i] == a.stepNames[..i];
    }
    assert a.stepNames[..|a.stepNames|] == a.stepNames;

    r := ExecuteSteps(steps, h, st);
  }

  /** The second loop of `Assembly.roundup`: execute the steps in order, stopping at the first failure. */
  method ExecuteSteps(steps: seq<Step<Assembly>>, h: Host, st: State) returns (r: Run)
    ensures r == RunSteps(steps, h, st)
    ensures r.outcome.Pass? <==> forall i :: 0 <= i < |steps| ==> StepPasses(steps, h, st, i)
  {
    RunStepsPassesIff(steps, h, st);
    r := Run(0, st, Pass);
    for i := 0 to |steps|
      invariant r == RunSteps(steps[..i], h, st) && r.outcome.Pass?
    {
      var e := Execute(steps[i], h, r.state);
      assert steps[..i + 1][..i] == steps[..i];
      r := Run(i + 1, e.state, e.outcome);
      if e.outcome.Fail? {
        FailurePersists(steps, i + 1, h, st);
        return;
      }
    }
    assert steps[..|steps|] == steps;
  }
}

/**
 * Contexts (src/pds/roundup/context.py): the surroundings a roundup runs in, each with
 * the table from step names to the step classes its ecosystem supports.
 */
module Contexts {
  import opened Wrappers
  import opened Strings
  import opened World
  import opened Steps
  import Python
  import Maven
  import NodeJS

  /** The three context classes. */
  datatype ContextKind = PythonContext | MavenContext | NodeJSContext

  function KindName(k: ContextKind): string {
    match k
    case PythonContext => "PythonContext"
    case MavenContext => "MavenContext"
    case NodeJSContext => "NodeJSContext"
  }

  /**
   * The `steps` table each context class installs. Python and Maven support exactly the
   * ten declared names; Node.js supports those and its four extra names.
   */
  function StepTable(k: ContextKind): (t: map<StepName, StepClass>)
    ensures k != NodeJSContext ==> forall n :: n in t <==> IsMember(n)
    ensures forall n :: IsMember(n) ==> n in t
    ensures Null in t && t[Null] == NullStep
  {
    match k
    case PythonContext => Python.StepTable()
    case MavenContext => Maven.StepTable()
    case NodeJSContext => NodeJS.StepTable()
  }

  /** A context: its class, working directory, environment and steps table. */
  datatype Context = Context(kind: ContextKind, cwd: string, environ: Environ, steps: map<StepName, StepClass>)

  /** `__init__(cwd, environ)` of a context class: stores both unchanged beside the class's table. */
  function New(kind: ContextKind, cwd: string, environ: Environ): (c: Context)
    ensures c.kind == kind && c.cwd == cwd && c.environ == environ
    ensures c.steps == StepTable(kind)
  {
    Context(kind, cwd, environ, StepTable(kind))
  }

  /**
   * `createStep(name, assembly)`: a new step of the table's class, bound to `assembly`,
   * when `name` is a key of the table, and None otherwise.
   */
  function CreateStep<A>(c: Context, name: StepName, a: A): (r: Option<Step<A>>)
    ensures r.Some? <==> name in c.steps
    ensures r.Some? ==> r.value.cls == c.steps[name] && r.value.assembly == a
  {
    if name in c.steps then Some(Step(c.steps[name], a)) else None
  }

  /** Every declared step name has a step in every context. */
  lemma CreateStepDeclared<A>(kind: ContextKind, cwd: string, environ: Environ, name: StepName, a: A)
    requires IsMember(name)
    ensures CreateStep(New(kind, cwd, environ), name, a).Some?
  {
  }

  /** The four names only Node.js knows yield no step in a Python or Maven context. */
  lemma CreateStepExtraName<A>(kind: ContextKind, cwd: string, environ: Environ, name: StepName, a: A)
    requires kind != NodeJSContext && !IsMember(name)
    ensures CreateStep(New(kind, cwd, environ), name, a) == None
  {
  }

  /** `repr` of a context. */
  function Repr(c: Context): string {
    "<" + KindName(c.kind) + "(cwd=" + c.cwd + ",environ=(" + NatToString(|c.environ|) + " items))>"
  }

  /** The printed form tells how many environment entries there are, not what they hold. */
  lemma ReprHidesEnviron(c: Context, environ: Environ)
    requires |environ| == |c.environ|
    ensures Repr(c.(environ := environ)) == Repr(c)
  {
  }
}

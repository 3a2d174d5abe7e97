/** The custom resources of the operator and the part of the API server they live in.
    Generated names are drawn from a counter; an object's `version` plays the role of its
    resource version, which the server advances only when a write changes the object. */
module Api {

  datatype Option<+T> = None | Some(value: T)

  /** What a Get reports: the object, that there is none, or another error. */
  datatype Lookup<+T> = Found(value: T) | NotFound | Unavailable

  type Name = nat

  datatype State =
    | NoState | Created | Building | Starting | Running | Succeeded
    | Failed | Skipped | Timeout | Canceled

  datatype Phase = NoPhase | BuildPhase | ServingPhase

  predicate IsCompleted(s: State) {
    s != NoState && s != Building
  }

  predicate IsStarting(s: State) {
    s == NoState || s == Starting
  }

  /** A build description. `engine` stands for everything that influences the build itself. */
  datatype BuildSpec = BuildSpec(
    engine: string,
    failedLimit: Option<int>,
    successfulLimit: Option<int>,
    timeout: Option<nat>,
    maxAge: Option<nat>)

  datatype BuilderSpec = BuilderSpec(build: BuildSpec, image: string, credentials: string, cancelled: bool)

  datatype ServingSpec = ServingSpec(version: string, image: string, credentials: string, impl: string)

  datatype FunctionSpec = FunctionSpec(
    version: string,
    image: string,
    credentials: string,
    build: Option<BuildSpec>,
    serving: Option<string>)

  datatype Condition = Condition(
    state: State,
    reason: string,
    message: string,
    ref: Option<Name>,
    last: Option<Name>,
    hash: Option<int>,
    service: string)

  const EMPTY_CONDITION := Condition(NoState, "", "", None, None, None, "")

  datatype FunctionStatus = FunctionStatus(
    build: Option<Condition>,
    serving: Option<Condition>,
    revision: Option<string>)

  datatype Function = Function(spec: FunctionSpec, status: FunctionStatus, version: nat)

  datatype BuilderStatus = BuilderStatus(
    phase: Phase,
    state: State,
    reason: string,
    message: string,
    output: Option<string>)

  const EMPTY_BUILDER_STATUS := BuilderStatus(NoPhase, NoState, "", "", None)

  datatype Builder = Builder(spec: BuilderSpec, created: int, status: BuilderStatus, version: nat)

  datatype ServingStatus = ServingStatus(
    phase: Phase,
    state: State,
    reason: string,
    message: string,
    service: string)

  const EMPTY_SERVING_STATUS := ServingStatus(NoPhase, NoState, "", "", "")

  datatype Serving = Serving(spec: ServingSpec, status: ServingStatus, version: nat)

  /** One function together with the builders and servings labelled with its name. */
  datatype Store = Store(
    fn: Function,
    builders: map<Name, Builder>,
    servings: map<Name, Serving>,
    next: Name)

  /** The hash of a specification, rendered as a number; nothing is assumed about collisions. */
  datatype Hashes = Hashes(builder: BuilderSpec -> int, serving: ServingSpec -> int)

  function Get<T>(m: map<Name, T>, n: Name): Lookup<T> {
    if n in m then Found(m[n]) else NotFound
  }

  /** What a Get of the object that a condition refers to reports. */
  function Find<T>(m: map<Name, T>, ref: Option<Name>): Lookup<T> {
    if ref.None? then NotFound else Get(m, ref.value)
  }

  function Unfinished(bs: map<Name, Builder>): set<Name> {
    set n | n in bs && !IsCompleted(bs[n].status.state)
  }

  /** The function object after a status write: specification untouched. */
  function WithStatus(f: Function, status: FunctionStatus): Function {
    f.(status := status, version := if status == f.status then f.version else f.version + 1)
  }

  /** The function object after a user's edit: status untouched. */
  function WithSpec(f: Function, spec: FunctionSpec): Function {
    f.(spec := spec, version := if spec == f.spec then f.version else f.version + 1)
  }

  /** The builder after its specification was marked as cancelled. */
  function Cancelled(b: Builder): Builder {
    b.(spec := b.spec.(cancelled := true), version := if b.spec.cancelled then b.version else b.version + 1)
  }

  /** The builder after a status write. */
  function WithBuilderStatus(b: Builder, status: BuilderStatus): Builder {
    b.(status := status, version := if status == b.status then b.version else b.version + 1)
  }

  /** How far a build has come: not begun, under way, over. */
  function Rank(s: State): nat {
    if s == NoState then 0 else if s == Building then 1 else 2
  }

  /** A status write that the Builder controller may make: never over a completed build, and never backwards. */
  predicate MayFollow(before: BuilderStatus, after: BuilderStatus) {
    && !IsCompleted(before.state)
    && Rank(before.state) <= Rank(after.state)
    && after.state in {NoState, Building, Succeeded, Failed, Timeout, Canceled}
  }
}

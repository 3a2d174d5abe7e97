/** The decisions and status changes of the Function controller, free of API calls. */
module FunctionLogic {
  import opened Api

  const ZERO_BUILD := BuildSpec("", None, None, None, None)
  const ZERO_BUILDER_SPEC := BuilderSpec(ZERO_BUILD, "", "", false)
  const ZERO_SERVING_SPEC := ServingSpec("", "", "", "")

  function CreateBuilderSpec(spec: FunctionSpec): BuilderSpec {
    match spec.build
    case None => ZERO_BUILDER_SPEC
    case Some(build) => BuilderSpec(build, spec.image, spec.credentials, false)
  }

  /** Only what influences the build is hashed: history limits, age, timeout and state are cleared. */
  function BuilderHash(h: Hashes, spec: BuilderSpec): int {
    h.builder(spec.(build := BuildSpec(spec.build.engine, None, None, None, None), cancelled := false))
  }

  /** The image name up to the first '@'. */
  function Repo(image: string): (r: string)
    ensures r <= image && '@' !in r
    ensures r == image || image[|r|] == '@'
  {
    if image == "" || image[0] == '@' then "" else [image[0]] + Repo(image[1..])
  }

  function ServingImage(image: string, revision: Option<string>): string {
    if revision.None? || revision.value == "" then image else Repo(image) + "@" + revision.value
  }

  function CreateServingSpec(f: Function): ServingSpec {
    match f.spec.serving
    case None => ZERO_SERVING_SPEC
    case Some(impl) =>
      ServingSpec(f.spec.version, ServingImage(f.spec.image, f.status.revision), f.spec.credentials, impl)
  }

  /** Must a builder be created? `found` is what a Get of the recorded builder reports. */
  predicate NeedBuilder(h: Hashes, f: Function, found: Lookup<Builder>) {
    match f.status.build
    case None => true
    case Some(c) =>
      || c.hash.None?
      || (c.ref.None? && f.spec.build.Some?)
      || c.hash != Some(BuilderHash(h, CreateBuilderSpec(f.spec)))
      || (f.spec.build.Some? && found.NotFound? && c.state != Succeeded)
  }

  /** Must a serving be created? `found` is what a Get of the recorded serving reports. */
  predicate NeedServing(h: Hashes, f: Function, found: Lookup<Serving>) {
    && f.status.serving.Some?
    && (f.status.build.Some? ==> f.status.build.value.state in {Succeeded, Skipped})
    && var c := f.status.serving.value;
      || c.state == NoState
      || c.hash.None?
      || (c.ref.None? && f.spec.serving.Some?)
      || c.hash != Some(h.serving(CreateServingSpec(f)))
      || (f.spec.serving.Some? && found.NotFound?)
  }

  /** Is there a recorded object whose progress is followed? */
  predicate Tracks(c: Option<Condition>) {
    c.Some? && c.value.state != NoState && c.value.ref.Some?
  }

  function Ref(c: Option<Condition>): Option<Name> {
    if c.Some? then c.value.ref else None
  }

  function Last(f: FunctionStatus): Option<Name> {
    if f.serving.Some? then f.serving.value.last else None
  }

  function OrEmpty(c: Option<Condition>): Condition {
    if c.Some? then c.value else EMPTY_CONDITION
  }

  function ResetBuild(st: FunctionStatus): FunctionStatus {
    st.(build := Some(OrEmpty(st.build).(state := NoState, reason := "", message := "", ref := None)))
  }

  function SkipBuild(h: Hashes, st: FunctionStatus): FunctionStatus {
    st.(build := Some(EMPTY_CONDITION.(state := Skipped, hash := Some(h.builder(ZERO_BUILDER_SPEC)))),
        serving := Some(EMPTY_CONDITION))
  }

  function BuilderMade(h: Hashes, st: FunctionStatus, n: Name, spec: BuilderSpec): FunctionStatus {
    st.(build := Some(EMPTY_CONDITION.(state := Created, ref := Some(n), hash := Some(BuilderHash(h, spec)))))
  }

  predicate BuildChanged(c: Condition, b: BuilderStatus) {
    c.state != b.state || c.reason != b.reason || c.message != b.message
  }

  /** The builder's outcome copied to the function; a success clears the way for a new serving. */
  function RecordBuild(st: FunctionStatus, b: BuilderStatus): FunctionStatus
    requires st.build.Some?
  {
    var built := st.(build := Some(st.build.value.(state := b.state, reason := b.reason, message := b.message)));
    if b.state != Succeeded then built
    else built.(
      revision := if b.output.Some? then b.output else st.revision,
      serving := Some(OrEmpty(st.serving).(state := NoState, reason := "", message := "")))
  }

  function ResetServing(st: FunctionStatus): FunctionStatus {
    st.(serving := Some(OrEmpty(st.serving).(state := NoState, reason := "", message := "", ref := None, hash := None)))
  }

  function SkipServing(h: Hashes, st: FunctionStatus): FunctionStatus {
    st.(serving := Some(EMPTY_CONDITION.(state := Skipped, hash := Some(h.serving(ZERO_SERVING_SPEC)))))
  }

  function ServingMade(h: Hashes, st: FunctionStatus, n: Name, spec: ServingSpec): FunctionStatus {
    st.(serving := Some(EMPTY_CONDITION.(state := Created, ref := Some(n), hash := Some(h.serving(spec)), last := Last(st))))
  }

  predicate ServingChanged(c: Condition, s: ServingStatus) {
    c.state != s.state || c.reason != s.reason || c.message != s.message
  }

  /** The serving's outcome copied to the function; a running serving becomes the last successful one. */
  function RecordServing(st: FunctionStatus, s: ServingStatus): FunctionStatus
    requires st.serving.Some?
  {
    var c := st.serving.value.(state := s.state, reason := s.reason, message := s.message);
    st.(serving := Some(if s.state == Running then c.(last := c.ref, service := s.service) else c))
  }

  /** The names that cleaning servings leaves alone. */
  function Spared(st: FunctionStatus): set<Name> {
    (if Ref(st.serving).Some? then {Ref(st.serving).value} else {})
    + (if Last(st).Some? then {Last(st).value} else {})
  }

  /** Must a builder be created, as things are on the server? */
  predicate Needs(h: Hashes, s: Store) {
    NeedBuilder(h, s.fn, Find(s.builders, Ref(s.fn.status.build)))
  }

  /** Does an edit change what is built, or whether anything is built at all? */
  predicate Concerns(h: Hashes, before: FunctionSpec, after: FunctionSpec) {
    || BuilderHash(h, CreateBuilderSpec(before)) != BuilderHash(h, CreateBuilderSpec(after))
    || before.build.Some? != after.build.Some?
  }
}

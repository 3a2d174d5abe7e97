/** A run, from a function's first appearance, in which a handover breaks off and leaves a gap. */
module HandoverGap {
  import opened Api
  import opened FunctionLogic
  import opened BuilderHistory
  import opened Lifecycle
  import opened NoGap
  import C = FunctionController
  import U = Undisturbed

  // ---------- Composing smooth runs ----------

  /** No call fails, no write is refused, and nobody else deletes anything. */
  predicate Smooth(m: Machine, a: Action) {
    !a.Fail? && !a.BuilderGone? && !a.ServingGone? && (a.Write? && !m.pc.Idle? ==> Current(m, m.pc.fn))
  }

  ghost predicate AllSmooth(h: Hashes, spec: FunctionSpec, acts: seq<Action>) {
    acts != [] ==>
      && AllSmooth(h, spec, acts[..|acts| - 1])
      && Smooth(Run(h, spec, acts[..|acts| - 1]), acts[|acts| - 1])
  }

  /** Smooth runs are among those in which no handover breaks off. */
  lemma {:induction false} SmoothIsMild(h: Hashes, spec: FunctionSpec, acts: seq<Action>)
    requires AllSmooth(h, spec, acts)
    ensures AllMild(h, spec, acts) && AllSteady(h, spec, acts)
  {
    if acts != [] {
      SmoothIsMild(h, spec, acts[..|acts| - 1]);
    }
  }

  ghost predicate SmoothRun(h: Hashes, spec: FunctionSpec, acts: seq<Action>, m: Machine) {
    AllSmooth(h, spec, acts) && KindsKept(spec, acts) && Run(h, spec, acts) == m
  }

  lemma SmoothGoesOn(h: Hashes, spec: FunctionSpec, acts: seq<Action>, m: Machine, a: Action, next: Machine)
      returns (more: seq<Action>)
    requires SmoothRun(h, spec, acts, m) && Smooth(m, a) && Next(h, m, a) == next
    requires a.Edit? ==> SameKind(a.spec, spec)
    ensures more == acts + [a] && SmoothRun(h, spec, more, next)
  {
    more := acts + [a];
    assert more[..|acts|] == acts;
  }

  lemma {:induction false} SuccessIsSmooth(h: Hashes, spec: FunctionSpec, acts: seq<Action>, m: Machine, own: seq<Action>)
      returns (more: seq<Action>)
    requires SmoothRun(h, spec, acts, m) && U.AllSucceed(h, m, own)
    ensures SmoothRun(h, spec, more, U.Go(h, m, own))
    decreases |own|
  {
    if own == [] {
      more := acts;
    } else {
      var next := Next(h, m, own[0]);
      more := SmoothGoesOn(h, spec, acts, m, own[0], next);
      more := SuccessIsSmooth(h, spec, more, next, own[1..]);
    }
  }

  /** From rest, an undisturbed attempt later. */
  lemma AttemptIsSmooth(h: Hashes, spec: FunctionSpec, acts: seq<Action>, m: Machine, c: C.Choice)
      returns (more: seq<Action>, m': Machine)
    requires SmoothRun(h, spec, acts, m) && m.pc.Idle? && C.LegalChoice(m.store, c)
    ensures SmoothRun(h, spec, more, m') && m'.pc.Idle? && m'.store == C.Attempt(h, m.store, c)
  {
    m' := U.MachineComputesAttempt(h, m, c);
    var own :| U.AllSucceed(h, m, own) && U.Go(h, m, own) == m';
    more := SuccessIsSmooth(h, spec, acts, m, own);
  }

  // ---------- A function without a build, first served by "a", then by "b" ----------

  const NONE := C.Choice({}, 0)
  const UP := ServingStatus(ServingPhase, Running, "Running", "Running", "")

  function Wants(impl: string): FunctionSpec {
    FunctionSpec("v1", "img", "", None, Some(impl))
  }

  function Served(impl: string): ServingSpec {
    ServingSpec("v1", "img", "", impl)
  }

  function SkippedBuild(h: Hashes): Option<Condition> {
    Some(EMPTY_CONDITION.(state := Skipped, hash := Some(h.builder(ZERO_BUILDER_SPEC))))
  }

  function Shows(h: Hashes, impl: string, state: State, text: string, ref: Option<Name>, last: Option<Name>): FunctionStatus {
    FunctionStatus(SkippedBuild(h), Some(Condition(state, text, text, ref, last, Some(h.serving(Served(impl))), "")), None)
  }

  /** What the server holds once the serving of "a" has been created, moves on, and is on record. */
  function First(h: Hashes, status: ServingStatus, moves: nat, shown: FunctionStatus, version: nat): Store {
    Store(Function(Wants("a"), shown, version), map[], map[0 := Serving(Served("a"), status, moves)], 1)
  }

  /** What it holds once the serving of "b" has been created as well. */
  function Second(h: Hashes, status: ServingStatus, moves: nat): Store {
    Store(Function(Wants("b"), Shows(h, "b", Created, "", Some(1), Some(0)), 7), map[],
          map[0 := Serving(Served("a"), UP, 1), 1 := Serving(Served("b"), status, moves)], 2)
  }

  lemma NothingToKeep(s: Store)
    requires s.builders == map[]
    ensures C.LegalChoice(s, NONE) && Restrict(s.builders, {}) == map[] && Unfinished(s.builders) == {}
  {
    assert Class(s.builders, false) == {} && Class(s.builders, true) == {};
  }

  /** After the first build part: the build is skipped. */
  function BuildSkipped(h: Hashes): Store {
    Store(Function(Wants("a"), FunctionStatus(SkippedBuild(h), Some(EMPTY_CONDITION), None), 2), map[], map[], 0)
  }

  lemma SkipsBuild(h: Hashes)
    ensures C.BuilderPart(h, Init(Wants("a")).store, NONE) == BuildSkipped(h)
  {
    NothingToKeep(Init(Wants("a")).store);
  }

  lemma ServesFirst(h: Hashes)
    ensures C.ServingPart(h, BuildSkipped(h))
      == First(h, EMPTY_SERVING_STATUS, 0, Shows(h, "a", Created, "", Some(0), None), 3)
  {
    var s := BuildSkipped(h);
    assert C.CleanServings(s, s.fn.status) == map[];
    assert CreateServingSpec(s.fn) == Served("a");
    assert s.servings[0 := Serving(Served("a"), EMPTY_SERVING_STATUS, 0)]
      == map[0 := Serving(Served("a"), EMPTY_SERVING_STATUS, 0)];
  }

  lemma BuildStaysSkipped(h: Hashes, s: Store)
    requires s.fn.spec.build.None? && s.fn.status.build == SkippedBuild(h)
    ensures C.BuilderPart(h, s, NONE) == s
  {
    ZeroHash(h);
  }

  lemma RecordsFirst(h: Hashes)
    ensures C.ServingPart(h, First(h, UP, 1, Shows(h, "a", Created, "", Some(0), None), 3))
      == First(h, UP, 1, Shows(h, "a", Running, "Running", Some(0), Some(0)), 4)
  {
    var s := First(h, UP, 1, Shows(h, "a", Created, "", Some(0), None), 3);
    var recorded := RecordServing(s.fn.status, UP);
    assert CreateServingSpec(s.fn) == Served("a");
    assert recorded == Shows(h, "a", Running, "Running", Some(0), Some(0));
    assert C.CleanServings(s, recorded) == s.servings;
  }

  /** After the edit. */
  function Edited(h: Hashes): Store {
    var s := First(h, UP, 1, Shows(h, "a", Running, "Running", Some(0), Some(0)), 4);
    s.(fn := s.fn.(spec := Wants("b"), version := 5))
  }

  lemma ServesSecond(h: Hashes)
    requires h.serving(Served("a")) != h.serving(Served("b"))
    ensures C.ServingPart(h, Edited(h)) == Second(h, EMPTY_SERVING_STATUS, 0)
  {
    var s := Edited(h);
    assert CreateServingSpec(s.fn) == Served("b");
    var reset := C.PutStatus(s, ResetServing(s.fn.status));
    assert reset.fn.version == 6;
    assert C.CleanServings(reset, reset.fn.status) == s.servings;
    assert CreateServingSpec(reset.fn) == Served("b");
    assert C.NewServing(h, reset) == Second(h, EMPTY_SERVING_STATUS, 0);
  }

  lemma RunsFirst(h: Hashes) returns (acts: seq<Action>, m: Machine)
    ensures SmoothRun(h, Wants("a"), acts, m) && m.pc.Idle?
    ensures m.store == First(h, UP, 1, Shows(h, "a", Created, "", Some(0), None), 3)
  {
    var spec := Wants("a");
    NothingToKeep(Init(spec).store);
    acts, m := AttemptIsSmooth(h, spec, [], Init(spec), NONE);
    SkipsBuild(h);
    ServesFirst(h);
    var next := m.(store := First(h, UP, 1, m.store.fn.status, 3));
    assert m.store.servings[0 := Serving(Served("a"), UP, 1)] == next.store.servings;
    acts := SmoothGoesOn(h, spec, acts, m, ServingMoves(0, UP), next);
    m := next;
  }

  lemma RunsEdited(h: Hashes) returns (acts: seq<Action>, m: Machine)
    ensures SmoothRun(h, Wants("a"), acts, m) && m.pc.Idle? && m.store == Edited(h)
  {
    acts, m := RunsFirst(h);
    NothingToKeep(m.store);
    BuildStaysSkipped(h, m.store);
    RecordsFirst(h);
    acts, m := AttemptIsSmooth(h, Wants("a"), acts, m, NONE);
    var next := m.(store := Edited(h));
    acts := SmoothGoesOn(h, Wants("a"), acts, m, Edit(Wants("b")), next);
    m := next;
  }

  lemma DeploysSecond(h: Hashes) returns (acts: seq<Action>, m: Machine)
    requires h.serving(Served("a")) != h.serving(Served("b"))
    ensures SmoothRun(h, Wants("a"), acts, m) && m.pc.Idle? && m.store == Second(h, EMPTY_SERVING_STATUS, 0)
  {
    acts, m := RunsEdited(h);
    NothingToKeep(m.store);
    BuildStaysSkipped(h, m.store);
    ServesSecond(h);
    acts, m := AttemptIsSmooth(h, Wants("a"), acts, m, NONE);
  }

  lemma RunsSecond(h: Hashes) returns (acts: seq<Action>, m: Machine)
    requires h.serving(Served("a")) != h.serving(Served("b"))
    ensures SmoothRun(h, Wants("a"), acts, m) && m.pc.Idle? && m.store == Second(h, UP, 1)
  {
    acts, m := DeploysSecond(h);
    var next := m.(store := Second(h, UP, 1));
    assert m.store.servings[1 := Serving(Served("b"), UP, 1)] == next.store.servings;
    acts := SmoothGoesOn(h, Wants("a"), acts, m, ServingMoves(1, UP), next);
    m := next;
  }

  // ---------- The handover ----------

  /** The local copy with which serving 1 takes over. */
  function Takeover(h: Hashes): Function {
    var f := Second(h, UP, 1).fn;
    f.(status := RecordServing(f.status, UP))
  }

  function Noted(m: Machine): Machine {
    m.(log := m.log.(ran := m.log.ran + {1}))
  }

  lemma SeesRunning(h: Hashes, acts: seq<Action>, m: Machine) returns (more: seq<Action>)
    requires SmoothRun(h, Wants("a"), acts, m) && m.pc.Idle? && m.store == Second(h, UP, 1)
    ensures SmoothRun(h, Wants("a"), more, Noted(m).(pc := ListServings(Takeover(h), false)))
  {
    var f := m.store.fn;
    more := SmoothGoesOn(h, Wants("a"), acts, m, Fetch, m.(pc := DecideBuilder(f)));
    ZeroHash(h);
    more := SmoothGoesOn(h, Wants("a"), more, m.(pc := DecideBuilder(f)), LookUp(true), m.(pc := TrackBuilder(f)));
    more := SmoothGoesOn(h, Wants("a"), more, m.(pc := TrackBuilder(f)), LookUp(true), m.(pc := DecideServing(f)));
    assert CreateServingSpec(f) == Served("b");
    more := SmoothGoesOn(h, Wants("a"), more, m.(pc := DecideServing(f)), LookUp(true), m.(pc := TrackServing(f)));
    TakesOverNow(h, m);
    more := SmoothGoesOn(h, Wants("a"), more, m.(pc := TrackServing(f)), LookUp(true),
                         Noted(m).(pc := ListServings(Takeover(h), false)));
  }

  lemma TakesOverNow(h: Hashes, m: Machine)
    requires m.store == Second(h, UP, 1)
    ensures Next(h, m.(pc := TrackServing(m.store.fn)), LookUp(true)) == Noted(m).(pc := ListServings(Takeover(h), false))
  {
  }

  lemma ListsPredecessor(h: Hashes, m: Machine)
    requires m.pc == ListServings(Takeover(h), false) && m.store == Second(h, UP, 1)
    ensures Next(h, m, List({})) == m.(pc := CleanServings(Takeover(h), {0}, false))
  {
    assert m.store.servings.Keys - Spared(Takeover(h).status) == {0};
  }

  function Alone(h: Hashes): Store {
    Second(h, UP, 1).(servings := map[1 := Serving(Served("b"), UP, 1)])
  }

  lemma DeletesPredecessor(h: Hashes, m: Machine)
    requires m.pc == CleanServings(Takeover(h), {0}, false) && m.store == Second(h, UP, 1)
    ensures Next(h, m, Touch(0)) == m.(store := Alone(h), pc := CleanServings(Takeover(h), {}, false))
  {
    assert m.store.servings - {0} == Alone(h).servings;
    assert m.pc.doomed - {0} == {};
  }

  /** A smooth run up to the moment at which the predecessor has been deleted and nothing has been recorded. */
  lemma HandsOver(h: Hashes) returns (acts: seq<Action>, m: Machine)
    requires h.serving(Served("a")) != h.serving(Served("b"))
    ensures SmoothRun(h, Wants("a"), acts, m)
    ensures m.store == Alone(h) && m.pc == CleanServings(Takeover(h), {}, false)
  {
    acts, m := RunsSecond(h);
    acts := SeesRunning(h, acts, m);
    var listing := Noted(m).(pc := ListServings(Takeover(h), false));
    ListsPredecessor(h, listing);
    var cleaning := listing.(pc := CleanServings(Takeover(h), {0}, false));
    acts := SmoothGoesOn(h, Wants("a"), acts, listing, List({}), cleaning);
    DeletesPredecessor(h, cleaning);
    m := cleaning.(store := Alone(h), pc := CleanServings(Takeover(h), {}, false));
    acts := SmoothGoesOn(h, Wants("a"), acts, cleaning, Touch(0), m);
  }

  /** The predecessor is deleted, and then either a call fails at once or the status write fails: the record names a
      serving that is gone. Up to the last action of either run nothing failed, no write was refused, nobody else
      deleted anything, and the edit on the way switched nothing on or off. */
  lemma FailedHandoverLeavesGap(h: Hashes) returns (early: seq<Action>, late: seq<Action>)
    requires h.serving(Served("a")) != h.serving(Served("b"))
    ensures forall acts :: acts in {early, late} ==>
      && AllSmooth(h, Wants("a"), acts) && AllMild(h, Wants("a"), acts) && KindsKept(Wants("a"), acts)
      && var m, m' := Run(h, Wants("a"), acts), Run(h, Wants("a"), acts + [Fail]);
        && Handover(m.pc) && m'.pc.Idle?
        && Last(m'.store.fn.status) == Some(0) && 0 !in m'.store.servings
    ensures Run(h, Wants("a"), early).pc.CleanServings? && Run(h, Wants("a"), late).pc.WriteServingTracked?
  {
    var m;
    early, m := HandsOver(h);
    late := SmoothGoesOn(h, Wants("a"), early, m, Finish, m.(pc := WriteServingTracked(Takeover(h))));
    SmoothIsMild(h, Wants("a"), early);
    SmoothIsMild(h, Wants("a"), late);
    assert (early + [Fail])[..|early|] == early && (late + [Fail])[..|late|] == late;
  }
}

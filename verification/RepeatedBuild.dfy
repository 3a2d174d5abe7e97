/** Why counting builders needs room for a failed and a successful one: without a place for a class, a build of that
    class that ends between the Get that reads its state and the List that prunes is deleted before its end is
    recorded, and is then repeated. */
module RepeatedBuild {
  import opened Api
  import opened FunctionLogic
  import opened BuilderHistory
  import opened Lifecycle
  import opened Rollout
  import opened NoGap
  import opened BuildCount

  const AT_WORK := BuilderStatus(BuildPhase, Building, "", "", None)

  /** A status that ends a build at work. */
  predicate Ends(last: BuilderStatus) {
    MayFollow(AT_WORK, last) && IsCompleted(last.state) && last.phase == BuildPhase
  }

  /** Nothing fails, nobody edits, nobody but the worker deletes. */
  predicate Peaceful(a: Action) {
    !a.Fail? && !a.Edit? && !a.BuilderGone? && !a.ServingGone? && (a.LookUp? ==> a.available)
  }

  /** In the course of a run creation times grow. */
  ghost predicate Timely(h: Hashes, spec: FunctionSpec, acts: seq<Action>) {
    acts != [] ==>
      && Timely(h, spec, acts[..|acts| - 1])
      && Later(Run(h, spec, acts[..|acts| - 1]), acts[|acts| - 1])
  }

  /** A peaceful run that ends in m, and in which nothing makes another builder necessary. */
  ghost predicate Trail(h: Hashes, spec: FunctionSpec, acts: seq<Action>, m: Machine) {
    && Run(h, spec, acts) == m && Causes(h, spec, acts) == 0 && Timely(h, spec, acts)
    && forall a :: a in acts ==> Peaceful(a)
  }

  lemma TrailGoesOn(h: Hashes, spec: FunctionSpec, acts: seq<Action>, m: Machine, a: Action, next: Machine)
      returns (more: seq<Action>)
    requires Trail(h, spec, acts, m) && Next(h, m, a) == next
    requires Cause(h, m, a) == 0 && Later(m, a) && Peaceful(a)
    ensures more == acts + [a] && Trail(h, spec, more, next)
  {
    more := acts + [a];
    assert more[..|acts|] == acts;
  }

  // ---------- From a decision to build to a new builder ----------

  lemma CancelsNone(h: Hashes, m: Machine)
    requires m.pc.ListToCancel? && m.store.builders == map[]
    ensures Next(h, m, List({})) == m.(pc := Cancel(m.pc.fn, map[], false))
  {
    assert Unfinished(m.store.builders) == {};
    assert Next(h, m, List({})).pc.todo == map[];
  }

  lemma NoneMayBeKept(bs: map<Name, Builder>, limits: Limits)
    requires bs == map[]
    ensures LegalPrune(bs, {}, limits) && bs.Keys - {} == {}
  {
    assert Class(bs, false) == {} && Class(bs, true) == {};
  }

  lemma PrunesNone(h: Hashes, m: Machine)
    requires m.pc.ListToPrune? && m.store.builders == map[]
    ensures Next(h, m, List({})) == m.(pc := Prune(m.pc.fn, {}, m.pc.making))
  {
    NoneMayBeKept(m.store.builders, LimitsOf(m.pc.fn.spec));
  }

  lemma MakesFirst(h: Hashes, m: Machine, at: int)
    requires m.pc.MakeBuilder? && m.pc.fn.spec.build.Some? && m.store.builders == map[]
    ensures Next(h, m, Make(at)) == Made(h, m, at)
  {
  }

  /** With a new builder, its name not recorded yet. */
  function Made(h: Hashes, m: Machine, at: int): Machine
    requires !m.pc.Idle?
  {
    var n, spec := m.store.next, CreateBuilderSpec(m.pc.fn.spec);
    m.(store := m.store.(builders := map[n := Builder(spec, at, EMPTY_BUILDER_STATUS, 0)], next := n + 1),
       pc := WriteMade(m.pc.fn.(status := BuilderMade(h, m.pc.fn.status, n, spec))),
       log := m.log.(born := m.log.born[n := spec]))
  }

  lemma FindsNothingToPrune(h: Hashes, spec: FunctionSpec, before: seq<Action>, m: Machine) returns (acts: seq<Action>)
    requires m.pc == ListToCancel(m.store.fn) && m.store.builders == map[] && Trail(h, spec, before, m)
    ensures Trail(h, spec, acts, m.(pc := Prune(m.store.fn, {}, true)))
  {
    CancelsNone(h, m);
    acts := TrailGoesOn(h, spec, before, m, List({}), m.(pc := Cancel(m.store.fn, map[], false)));
    var listing := m.(pc := ListToPrune(m.store.fn, true));
    acts := TrailGoesOn(h, spec, acts, m.(pc := Cancel(m.store.fn, map[], false)), Finish, listing);
    PrunesNone(h, listing);
    acts := TrailGoesOn(h, spec, acts, listing, List({}), m.(pc := Prune(m.store.fn, {}, true)));
  }

  lemma Builds(h: Hashes, spec: FunctionSpec, before: seq<Action>, m: Machine, at: int) returns (acts: seq<Action>)
    requires m.pc == ListToCancel(m.store.fn) && m.store.builders == map[] && m.store.fn.spec.build.Some?
    requires Trail(h, spec, before, m)
    ensures Trail(h, spec, acts, Made(h, m, at))
  {
    acts := FindsNothingToPrune(h, spec, before, m);
    var ready := m.(pc := MakeBuilder(m.store.fn));
    acts := TrailGoesOn(h, spec, acts, m.(pc := Prune(m.store.fn, {}, true)), Finish, ready);
    MakesFirst(h, ready, at);
    acts := TrailGoesOn(h, spec, acts, ready, Make(at), Made(h, m, at));
  }

  /** A function that has no serving yet needs none before its build is over. */
  lemma PassesServing(h: Hashes, spec: FunctionSpec, before: seq<Action>, m: Machine) returns (acts: seq<Action>)
    requires m.pc == DecideServing(m.store.fn) && m.store.fn.status.serving.None? && Trail(h, spec, before, m)
    ensures Trail(h, spec, acts, m.(pc := Idle))
  {
    acts := TrailGoesOn(h, spec, before, m, LookUp(true), m.(pc := TrackServing(m.store.fn)));
    acts := TrailGoesOn(h, spec, acts, m.(pc := TrackServing(m.store.fn)), LookUp(true), m.(pc := Idle));
  }

  // ---------- The first attempt ----------

  /** The function while its build is in this state under this reference. */
  function Recorded(h: Hashes, spec: FunctionSpec, state: State, ref: Option<Name>, version: nat): Function {
    var hash := Some(BuilderHash(h, CreateBuilderSpec(spec)));
    Function(spec, FunctionStatus(Some(EMPTY_CONDITION.(state := state, ref := ref, hash := hash)), None, None), version)
  }

  /** Builder 0 has this status; the function shows this state. */
  function During(h: Hashes, spec: FunctionSpec, state: State, version: nat, status: BuilderStatus, moves: nat): Machine {
    var b := Builder(CreateBuilderSpec(spec), 10, status, moves);
    Machine(Store(Recorded(h, spec, state, Some(0), version), map[0 := b], map[], 1), Idle,
            Log(map[0 := b.spec], map[], {}))
  }

  lemma DecidesFirst(h: Hashes, spec: FunctionSpec) returns (acts: seq<Action>)
    ensures var init := Init(spec);
      Trail(h, spec, acts, init.(pc := WriteReset(init.store.fn.(status := ResetBuild(init.store.fn.status)))))
  {
    var init := Init(spec);
    var f := init.store.fn;
    acts := [];
    acts := TrailGoesOn(h, spec, acts, init, Fetch, init.(pc := DecideBuilder(f)));
    acts := TrailGoesOn(h, spec, acts, init.(pc := DecideBuilder(f)), LookUp(true),
                        init.(pc := WriteReset(f.(status := ResetBuild(f.status)))));
  }

  /** The function whose build has been reset for the first time. */
  function ResetOnce(spec: FunctionSpec): Machine {
    var f := Function(spec, FunctionStatus(Some(EMPTY_CONDITION), None, None), 1);
    Init(spec).(store := Init(spec).store.(fn := f), pc := ListToCancel(f))
  }

  lemma ResetsFirst(h: Hashes, spec: FunctionSpec) returns (acts: seq<Action>)
    ensures Trail(h, spec, acts, ResetOnce(spec))
  {
    acts := DecidesFirst(h, spec);
    var init := Init(spec);
    var writing := init.(pc := WriteReset(init.store.fn.(status := ResetBuild(init.store.fn.status))));
    assert Next(h, writing, Write) == ResetOnce(spec);
    acts := TrailGoesOn(h, spec, acts, writing, Write, ResetOnce(spec));
  }

  lemma BuildsFirst(h: Hashes, spec: FunctionSpec) returns (acts: seq<Action>)
    requires spec.build.Some?
    ensures Trail(h, spec, acts, During(h, spec, Created, 2, EMPTY_BUILDER_STATUS, 0))
  {
    acts := ResetsFirst(h, spec);
    acts := Builds(h, spec, acts, ResetOnce(spec), 10);
    var made := Made(h, ResetOnce(spec), 10);
    var done := During(h, spec, Created, 2, EMPTY_BUILDER_STATUS, 0);
    StoresFirst(h, spec);
    acts := TrailGoesOn(h, spec, acts, made, Write, done.(pc := DecideServing(done.store.fn)));
    acts := PassesServing(h, spec, acts, done.(pc := DecideServing(done.store.fn)));
  }

  lemma StoresFirst(h: Hashes, spec: FunctionSpec)
    ensures var done := During(h, spec, Created, 2, EMPTY_BUILDER_STATUS, 0);
      Next(h, Made(h, ResetOnce(spec), 10), Write) == done.(pc := DecideServing(done.store.fn))
  {
  }

  // ---------- The second attempt: the build ends at the wrong moment ----------

  lemma FindsBuilder(h: Hashes, spec: FunctionSpec, before: seq<Action>) returns (acts: seq<Action>)
    requires spec.build.Some? && Trail(h, spec, before, During(h, spec, Created, 2, EMPTY_BUILDER_STATUS, 0))
    ensures var m := During(h, spec, Created, 2, AT_WORK, 1); Trail(h, spec, acts, m.(pc := TrackBuilder(m.store.fn)))
  {
    var m := During(h, spec, Created, 2, AT_WORK, 1);
    StartsWork(h, spec);
    acts := TrailGoesOn(h, spec, before, During(h, spec, Created, 2, EMPTY_BUILDER_STATUS, 0), BuilderMoves(0, AT_WORK), m);
    var f := m.store.fn;
    acts := TrailGoesOn(h, spec, acts, m, Fetch, m.(pc := DecideBuilder(f)));
    NeedsNoOther(h, spec);
    acts := TrailGoesOn(h, spec, acts, m.(pc := DecideBuilder(f)), LookUp(true), m.(pc := TrackBuilder(f)));
  }

  lemma SeesBuilding(h: Hashes, spec: FunctionSpec, before: seq<Action>) returns (acts: seq<Action>)
    requires spec.build.Some? && Trail(h, spec, before, During(h, spec, Created, 2, EMPTY_BUILDER_STATUS, 0))
    ensures var m := During(h, spec, Building, 3, AT_WORK, 1);
      Trail(h, spec, acts, m.(pc := ListToPrune(m.store.fn, false)))
  {
    acts := FindsBuilder(h, spec, before);
    var m, m' := During(h, spec, Created, 2, AT_WORK, 1), During(h, spec, Building, 3, AT_WORK, 1);
    var f := m.store.fn;
    var g := f.(status := RecordBuild(f.status, AT_WORK));
    assert Next(h, m.(pc := TrackBuilder(f)), LookUp(true)) == m.(pc := WriteTracked(g));
    acts := TrailGoesOn(h, spec, acts, m.(pc := TrackBuilder(f)), LookUp(true), m.(pc := WriteTracked(g)));
    RecordsBuilding(h, spec);
    acts := TrailGoesOn(h, spec, acts, m.(pc := WriteTracked(g)), Write, m'.(pc := ListToPrune(m'.store.fn, false)));
  }

  lemma RecordsBuilding(h: Hashes, spec: FunctionSpec)
    ensures var m, m' := During(h, spec, Created, 2, AT_WORK, 1), During(h, spec, Building, 3, AT_WORK, 1);
      Next(h, m.(pc := WriteTracked(m.store.fn.(status := RecordBuild(m.store.fn.status, AT_WORK)))), Write)
        == m'.(pc := ListToPrune(m'.store.fn, false))
  {
  }

  lemma StartsWork(h: Hashes, spec: FunctionSpec)
    ensures Next(h, During(h, spec, Created, 2, EMPTY_BUILDER_STATUS, 0), BuilderMoves(0, AT_WORK))
      == During(h, spec, Created, 2, AT_WORK, 1)
  {
    var m, m' := During(h, spec, Created, 2, EMPTY_BUILDER_STATUS, 0), During(h, spec, Created, 2, AT_WORK, 1);
    assert m.store.builders[0 := m'.store.builders[0]] == m'.store.builders;
  }

  lemma NeedsNoOther(h: Hashes, spec: FunctionSpec)
    requires spec.build.Some?
    ensures var m := During(h, spec, Created, 2, AT_WORK, 1);
      !NeedBuilder(h, m.store.fn, TryFind(m.store.builders, Ref(m.store.fn.status.build), true))
  {
  }

  /** Builder 0 has ended, which the function does not show. */
  function Ended(h: Hashes, spec: FunctionSpec, last: BuilderStatus): Machine {
    var m := During(h, spec, Building, 3, last, 2);
    if last.state == Succeeded then m.(log := m.log.(outcome := map[0 := last.output])) else m
  }

  function Gone(h: Hashes, spec: FunctionSpec, last: BuilderStatus): Machine {
    var m := Ended(h, spec, last);
    m.(store := m.store.(builders := map[]))
  }

  lemma EndsUnseen(h: Hashes, spec: FunctionSpec, last: BuilderStatus)
    requires Ends(last)
    ensures var m, m' := During(h, spec, Building, 3, AT_WORK, 1), Ended(h, spec, last);
      Next(h, m.(pc := ListToPrune(m.store.fn, false)), BuilderMoves(0, last))
        == m'.(pc := ListToPrune(m'.store.fn, false))
  {
    var m, m' := During(h, spec, Building, 3, AT_WORK, 1), Ended(h, spec, last);
    assert m.store.builders[0 := m'.store.builders[0]] == m'.store.builders;
    assert m.log.outcome[0 := last.output] == map[0 := last.output];
  }

  /** Without a place for its class the only builder is given up. */
  lemma OnlyOneMayGo(bs: map<Name, Builder>, n: Name, limits: Limits)
    requires bs.Keys == {n} && IsCompleted(bs[n].status.state) && limits.For(bs[n].status.state == Succeeded) <= 0
    ensures LegalPrune(bs, {}, limits) && bs.Keys - {} == {n}
  {
    var c := bs[n].status.state == Succeeded;
    assert Class(bs, !c) == {};
    assert Class(bs, c) * {} == {};
  }

  lemma ListsOne(h: Hashes, m: Machine, n: Name)
    requires m.pc.ListToPrune? && m.store.builders.Keys == {n}
    requires LegalPrune(m.store.builders, {}, LimitsOf(m.pc.fn.spec))
    ensures Next(h, m, List({})) == m.(pc := Prune(m.pc.fn, {n}, m.pc.making))
  {
    assert m.store.builders.Keys - {} == {n};
  }

  lemma IsListed(h: Hashes, spec: FunctionSpec, last: BuilderStatus)
    requires Ends(last) && LimitsOf(spec).For(last.state == Succeeded) <= 0
    ensures var m := Ended(h, spec, last);
      Next(h, m.(pc := ListToPrune(m.store.fn, false)), List({})) == m.(pc := Prune(m.store.fn, {0}, false))
  {
    var m := Ended(h, spec, last);
    OnlyOneMayGo(m.store.builders, 0, LimitsOf(spec));
    ListsOne(h, m.(pc := ListToPrune(m.store.fn, false)), 0);
  }

  lemma PrunesOne(h: Hashes, m: Machine, n: Name)
    requires m.pc.Prune? && m.pc.doomed == {n} && m.store.builders.Keys == {n}
    ensures Next(h, m, Touch(n)) ==
      m.(store := m.store.(builders := map[]), pc := Prune(m.pc.fn, {}, m.pc.making))
  {
    assert m.store.builders - {n} == map[];
    assert m.pc.doomed - {n} == {};
  }

  lemma IsDoomed(h: Hashes, spec: FunctionSpec, last: BuilderStatus, before: seq<Action>) returns (acts: seq<Action>)
    requires Ends(last) && LimitsOf(spec).For(last.state == Succeeded) <= 0
    requires var m := During(h, spec, Building, 3, AT_WORK, 1);
      Trail(h, spec, before, m.(pc := ListToPrune(m.store.fn, false)))
    ensures var m := Ended(h, spec, last); Trail(h, spec, acts, m.(pc := Prune(m.store.fn, {0}, false)))
  {
    var m, ended := During(h, spec, Building, 3, AT_WORK, 1), Ended(h, spec, last);
    var f := ended.store.fn;
    EndsUnseen(h, spec, last);
    acts := TrailGoesOn(h, spec, before, m.(pc := ListToPrune(m.store.fn, false)), BuilderMoves(0, last),
                        ended.(pc := ListToPrune(f, false)));
    IsListed(h, spec, last);
    acts := TrailGoesOn(h, spec, acts, ended.(pc := ListToPrune(f, false)), List({}), ended.(pc := Prune(f, {0}, false)));
  }

  lemma FinishesPruning(h: Hashes, m: Machine)
    requires m.pc.Prune? && m.pc.doomed == {} && !m.pc.making
    ensures Next(h, m, Finish) == m.(pc := DecideServing(m.pc.fn))
  {
  }

  lemma IsForgotten(h: Hashes, spec: FunctionSpec, last: BuilderStatus, before: seq<Action>) returns (acts: seq<Action>)
    requires Ends(last)
    requires var m := Ended(h, spec, last); Trail(h, spec, before, m.(pc := Prune(m.store.fn, {0}, false)))
    ensures Trail(h, spec, acts, Gone(h, spec, last))
  {
    var ended, gone := Ended(h, spec, last), Gone(h, spec, last);
    var f := ended.store.fn;
    PrunesOne(h, ended.(pc := Prune(f, {0}, false)), 0);
    acts := TrailGoesOn(h, spec, before, ended.(pc := Prune(f, {0}, false)), Touch(0), gone.(pc := Prune(f, {}, false)));
    FinishesPruning(h, gone.(pc := Prune(f, {}, false)));
    acts := TrailGoesOn(h, spec, acts, gone.(pc := Prune(f, {}, false)), Finish, gone.(pc := DecideServing(f)));
    acts := PassesServing(h, spec, acts, gone.(pc := DecideServing(f)));
  }

  // ---------- The third attempt ----------

  lemma MissesIt(h: Hashes, spec: FunctionSpec, last: BuilderStatus, before: seq<Action>) returns (acts: seq<Action>)
    requires spec.build.Some? && Trail(h, spec, before, Gone(h, spec, last))
    ensures
      var gone := Gone(h, spec, last);
      Trail(h, spec, acts, gone.(pc := WriteReset(gone.store.fn.(status := ResetBuild(gone.store.fn.status)))))
  {
    var gone := Gone(h, spec, last);
    var f := gone.store.fn;
    acts := TrailGoesOn(h, spec, before, gone, Fetch, gone.(pc := DecideBuilder(f)));
    var g := f.(status := ResetBuild(f.status));
    acts := TrailGoesOn(h, spec, acts, gone.(pc := DecideBuilder(f)), LookUp(true), gone.(pc := WriteReset(g)));
  }

  lemma StartsOver(h: Hashes, spec: FunctionSpec, last: BuilderStatus, before: seq<Action>)
      returns (acts: seq<Action>, m: Machine)
    requires spec.build.Some? && Trail(h, spec, before, Gone(h, spec, last))
    ensures Trail(h, spec, acts, m)
    ensures
      var gone := Gone(h, spec, last);
      m == gone.(store := gone.store.(fn := m.store.fn), pc := ListToCancel(m.store.fn))
    ensures m.store.fn == Recorded(h, spec, NoState, None, 4)
  {
    var gone := Gone(h, spec, last);
    acts := MissesIt(h, spec, last, before);
    var g := gone.store.fn.(status := ResetBuild(gone.store.fn.status));
    var again := Recorded(h, spec, NoState, None, 4);
    m := gone.(store := gone.store.(fn := again), pc := ListToCancel(again));
    acts := TrailGoesOn(h, spec, acts, gone.(pc := WriteReset(g)), Write, m);
  }

  /** Main result on the need for room: for every specification without a place for a class there is a peaceful run
      from a function's first appearance, with growing creation times, that makes two builders without a cause:
      the first one ends, in that class, between the Get and the List of one attempt. */
  lemma BuildIsRepeated(h: Hashes, spec: FunctionSpec, last: BuilderStatus) returns (acts: seq<Action>)
    requires spec.build.Some? && Ends(last) && LimitsOf(spec).For(last.state == Succeeded) <= 0
    ensures Timely(h, spec, acts) && Causes(h, spec, acts) == 0 && forall a :: a in acts ==> Peaceful(a)
    ensures Run(h, spec, acts).log.born == map[0 := CreateBuilderSpec(spec), 1 := CreateBuilderSpec(spec)]
    ensures last.state == Succeeded ==> Run(h, spec, acts).log.outcome == map[0 := last.output]
  {
    acts := BuildsFirst(h, spec);
    acts := SeesBuilding(h, spec, acts);
    acts := IsDoomed(h, spec, last, acts);
    acts := IsForgotten(h, spec, last, acts);
    var m;
    acts, m := StartsOver(h, spec, last, acts);
    acts := Builds(h, spec, acts, m, 20);
  }

  const SUCCEEDED := BuilderStatus(BuildPhase, Succeeded, "Succeeded", "Succeeded", Some("sha256:1"))
  const FAILED := BuilderStatus(BuildPhase, Failed, "Failed", "Failed", None)

  predicate NoEdits(acts: seq<Action>) {
    forall a :: a in acts ==> !a.Edit?
  }

  /** Main result: exactly when builders are counted by their causes in all runs without edits - when there is room
      for a failed and for a successful build. */
  lemma WhenBuildersAreCounted(h: Hashes, spec: FunctionSpec)
    requires spec.build.Some?
    ensures (forall acts :: Timely(h, spec, acts) && NoEdits(acts) ==>
               |Run(h, spec, acts).log.born.Keys| <= 1 + Causes(h, spec, acts))
      <==> FailedLimit(spec) >= 1 && SuccessfulLimit(spec) >= 1
  {
    if FailedLimit(spec) >= 1 && SuccessfulLimit(spec) >= 1 {
      forall acts | Timely(h, spec, acts) && NoEdits(acts)
        ensures |Run(h, spec, acts).log.born.Keys| <= 1 + Causes(h, spec, acts)
      {
        TimelyIsOrderly(h, spec, acts);
        BuildersAreCounted(h, spec, acts);
      }
    } else {
      var acts := BuildIsRepeated(h, spec, if SuccessfulLimit(spec) <= 0 then SUCCEEDED else FAILED);
      assert Run(h, spec, acts).log.born.Keys == {0, 1};
      assert forall a :: a in acts ==> Peaceful(a);
    }
  }

  lemma {:induction false} TimelyIsOrderly(h: Hashes, spec: FunctionSpec, acts: seq<Action>)
    requires Timely(h, spec, acts) && Roomy(spec) && NoEdits(acts)
    ensures Orderly(h, spec, acts)
  {
    if acts != [] {
      TimelyIsOrderly(h, spec, acts[..|acts| - 1]);
    }
  }
}

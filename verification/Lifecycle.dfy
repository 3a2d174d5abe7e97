/** The Function controller's attempts at the granularity of single API calls, interleaved with the
    user's edits, the progress of builders and servings, and deletions by others.

    `Next` is total: an action that is not enabled leaves everything as it is, so every sequence of
    actions is a run. `Fail` stands for an API call that fails, for a write that took effect although an
    error was reported (the write followed by `Fail`), and for a crash: the attempt ends and its local
    copy of the function is gone. */
module Lifecycle {
  import opened Api
  import opened FunctionLogic
  import opened BuilderHistory

  /** Where the one worker of this function stands. Each variant but `Idle` carries the local copy. */
  datatype Pc =
    | Idle
    | DecideBuilder(fn: Function)
    | TrackBuilder(fn: Function)
    | WriteTracked(fn: Function)
    | WriteReset(fn: Function)
    | ListToCancel(fn: Function)
    | Cancel(fn: Function, todo: map<Name, nat>, waiting: bool)
    | ListToPrune(fn: Function, making: bool)
    | Prune(fn: Function, doomed: set<Name>, making: bool)
    | MakeBuilder(fn: Function)
    | WriteMade(fn: Function)
    | DecideServing(fn: Function)
    | TrackServing(fn: Function)
    | WriteServingTracked(fn: Function)
    | WriteServingReset(fn: Function)
    | ListServings(fn: Function, making: bool)
    | CleanServings(fn: Function, doomed: set<Name>, making: bool)
    | MakeServing(fn: Function)
    | WriteServingMade(fn: Function)

  /** History that no controller reads: the builders ever created, what the succeeded ones reported,
      and the servings the worker has seen running. */
  datatype Log = Log(born: map<Name, BuilderSpec>, outcome: map<Name, Option<string>>, ran: set<Name>)

  datatype Machine = Machine(store: Store, pc: Pc, log: Log)

  datatype Action =
    // the worker's next API call
    | Fetch
    | LookUp(available: bool)
    | Write
    | List(kept: set<Name>)
    | Touch(name: Name)
    | Finish
    | Make(at: int)
    | Fail
    // everybody else
    | Edit(spec: FunctionSpec)
    | BuilderMoves(name: Name, builderStatus: BuilderStatus)
    | BuilderGone(name: Name)
    | ServingMoves(name: Name, servingStatus: ServingStatus)
    | ServingGone(name: Name)

  function Init(spec: FunctionSpec): Machine {
    Machine(
      Store(Function(spec, FunctionStatus(None, None, None), 0), map[], map[], 0),
      Idle,
      Log(map[], map[], {}))
  }

  // ---------- One step ----------

  /** A Get that may fail for another reason than the object's absence. */
  function TryFind<T>(m: map<Name, T>, ref: Option<Name>, available: bool): Lookup<T> {
    if available then Find(m, ref) else Unavailable
  }

  /** Is the local copy's version still the stored one? */
  predicate Current(m: Machine, f: Function) {
    m.store.fn.version == f.version
  }

  function StoreStatus(m: Machine, f: Function): Machine {
    m.(store := m.store.(fn := WithStatus(m.store.fn, f.status)))
  }

  /** The machine once a builder has been created for the local copy. */
  function Made(h: Hashes, m: Machine, at: int): Machine
    requires m.pc.MakeBuilder? && m.pc.fn.spec.build.Some?
  {
    var f, n, spec := m.pc.fn, m.store.next, CreateBuilderSpec(m.pc.fn.spec);
    var made := Builder(spec, at, EMPTY_BUILDER_STATUS, 0);
    m.(store := m.store.(builders := m.store.builders[n := made], next := n + 1),
       pc := WriteMade(f.(status := BuilderMade(h, f.status, n, spec))),
       log := m.log.(born := m.log.born[n := spec]))
  }

  ghost function BuilderCall(h: Hashes, m: Machine, a: Action): Machine {
    match (m.pc, a)
    case (DecideBuilder(f), LookUp(available)) =>
      m.(pc := if NeedBuilder(h, f, TryFind(m.store.builders, Ref(f.status.build), available))
               then WriteReset(f.(status := ResetBuild(f.status)))
               else TrackBuilder(f))
    case (TrackBuilder(f), LookUp(available)) =>
      if !Tracks(f.status.build) then m.(pc := DecideServing(f))
      else (
        match TryFind(m.store.builders, Ref(f.status.build), available)
        case Unavailable => m.(pc := Idle)
        case NotFound => m.(pc := DecideServing(f))
        case Found(b) =>
          m.(pc := if b.status.phase != BuildPhase then DecideServing(f)
                   else if BuildChanged(f.status.build.value, b.status)
                   then WriteTracked(f.(status := RecordBuild(f.status, b.status)))
                   else ListToPrune(f, false)))
    case (WriteTracked(f), Write) =>
      if !Current(m, f) then m.(pc := Idle)
      else var m' := StoreStatus(m, f); m'.(pc := ListToPrune(m'.store.fn, false))
    case (WriteReset(f), Write) =>
      if !Current(m, f) then m.(pc := Idle)
      else var m' := StoreStatus(m, f); m'.(pc := ListToCancel(m'.store.fn))
    case (ListToCancel(f), List(_)) =>
      m.(pc := Cancel(f, map n | n in Unfinished(m.store.builders) :: m.store.builders[n].version, false))
    case (Cancel(f, todo, waiting), Touch(n)) =>
      if n !in todo then m
      else if n !in m.store.builders || m.store.builders[n].version != todo[n] then m.(pc := Idle)
      else m.(store := m.store.(builders := m.store.builders[n := Cancelled(m.store.builders[n])]),
              pc := Cancel(f, todo - {n}, true))
    case (Cancel(f, todo, waiting), Finish) =>
      if todo != map[] then m
      else m.(pc := if waiting then DecideServing(f) else ListToPrune(f, true))
    case (ListToPrune(f, making), List(kept)) =>
      if LegalPrune(m.store.builders, kept, LimitsOf(f.spec))
      then m.(pc := Prune(f, m.store.builders.Keys - kept, making))
      else m
    case (Prune(f, doomed, making), Touch(n)) =>
      if n !in doomed then m
      else m.(store := m.store.(builders := m.store.builders - {n}), pc := Prune(f, doomed - {n}, making))
    case (Prune(f, doomed, making), Finish) =>
      if doomed != {} then m
      else m.(pc := if making then MakeBuilder(f) else DecideServing(f))
    case (MakeBuilder(f), Make(at)) =>
      if f.spec.build.None? then m.(pc := WriteMade(f.(status := SkipBuild(h, f.status))))
      else Made(h, m, at)
    case (WriteMade(f), Write) =>
      if !Current(m, f) then m.(pc := Idle)
      else var m' := StoreStatus(m, f); m'.(pc := DecideServing(m'.store.fn))
    case _ => m
  }

  function ServingCall(h: Hashes, m: Machine, a: Action): Machine {
    match (m.pc, a)
    case (DecideServing(f), LookUp(available)) =>
      m.(pc := if NeedServing(h, f, TryFind(m.store.servings, Ref(f.status.serving), available))
               then WriteServingReset(f.(status := ResetServing(f.status)))
               else TrackServing(f))
    case (TrackServing(f), LookUp(available)) =>
      if !Tracks(f.status.serving) then m.(pc := Idle)
      else (
        match TryFind(m.store.servings, Ref(f.status.serving), available)
        case Unavailable => m.(pc := Idle)
        case NotFound => m.(pc := Idle)
        case Found(s) =>
          if s.status.phase != ServingPhase || !ServingChanged(f.status.serving.value, s.status) then m.(pc := Idle)
          else
            var f' := f.(status := RecordServing(f.status, s.status));
            if s.status.state == Running
            then m.(pc := ListServings(f', false), log := m.log.(ran := m.log.ran + {f.status.serving.value.ref.value}))
            else m.(pc := WriteServingTracked(f')))
    case (WriteServingTracked(f), Write) =>
      if !Current(m, f) then m.(pc := Idle)
      else StoreStatus(m, f).(pc := Idle)
    case (WriteServingReset(f), Write) =>
      if !Current(m, f) then m.(pc := Idle)
      else var m' := StoreStatus(m, f); m'.(pc := ListServings(m'.store.fn, true))
    case (ListServings(f, making), List(_)) =>
      m.(pc := CleanServings(f, m.store.servings.Keys - Spared(f.status), making))
    case (CleanServings(f, doomed, making), Touch(n)) =>
      if n !in doomed then m
      else m.(store := m.store.(servings := m.store.servings - {n}), pc := CleanServings(f, doomed - {n}, making))
    case (CleanServings(f, doomed, making), Finish) =>
      if doomed != {} then m
      else m.(pc := if making then MakeServing(f) else WriteServingTracked(f))
    case (MakeServing(f), Make(_)) =>
      if f.spec.serving.None? then m.(pc := WriteServingMade(f.(status := SkipServing(h, f.status))))
      else
        var n, spec := m.store.next, CreateServingSpec(f);
        m.(store := m.store.(servings := m.store.servings[n := Serving(spec, EMPTY_SERVING_STATUS, 0)], next := n + 1),
           pc := WriteServingMade(f.(status := ServingMade(h, f.status, n, spec))))
    case (WriteServingMade(f), Write) =>
      if !Current(m, f) then m.(pc := Idle)
      else StoreStatus(m, f).(pc := Idle)
    case _ => m
  }

  function OthersAct(m: Machine, a: Action): Machine {
    match a
    case Edit(spec) => m.(store := m.store.(fn := WithSpec(m.store.fn, spec)))
    case BuilderMoves(n, st) =>
      if n in m.store.builders && MayFollow(m.store.builders[n].status, st)
      then m.(store := m.store.(builders := m.store.builders[n := WithBuilderStatus(m.store.builders[n], st)]),
              log := if st.state == Succeeded then m.log.(outcome := m.log.outcome[n := st.output]) else m.log)
      else m
    case BuilderGone(n) => m.(store := m.store.(builders := m.store.builders - {n}))
    case ServingMoves(n, st) =>
      if n in m.store.servings
      then var s := m.store.servings[n];
        m.(store := m.store.(servings := m.store.servings[n := s.(status := st, version := s.version + 1)]))
      else m
    case ServingGone(n) => m.(store := m.store.(servings := m.store.servings - {n}))
    case _ => m
  }

  ghost function Next(h: Hashes, m: Machine, a: Action): Machine {
    if a.Edit? || a.BuilderMoves? || a.BuilderGone? || a.ServingMoves? || a.ServingGone? then OthersAct(m, a)
    else if a.Fail? then m.(pc := Idle)
    else if m.pc.Idle? then (if a.Fetch? then m.(pc := DecideBuilder(m.store.fn)) else m)
    else if ServingSide(m.pc) then ServingCall(h, m, a)
    else BuilderCall(h, m, a)
  }

  predicate ServingSide(pc: Pc) {
    || pc.DecideServing? || pc.TrackServing? || pc.WriteServingTracked? || pc.WriteServingReset?
    || pc.ListServings? || pc.CleanServings? || pc.MakeServing? || pc.WriteServingMade?
  }

  /** The machine after a run: any sequence of actions from any function's first appearance. */
  ghost function Run(h: Hashes, spec: FunctionSpec, acts: seq<Action>): Machine {
    if acts == [] then Init(spec)
    else Next(h, Run(h, spec, acts[..|acts| - 1]), acts[|acts| - 1])
  }

  // ---------- At most one build at a time ----------

  ghost predicate AtMostOneUnfinished(bs: map<Name, Builder>) {
    forall m, n :: m in Unfinished(bs) && n in Unfinished(bs) ==> m == n
  }

  /** Past the cancellation check of its attempt the worker relies on every builder being finished. */
  predicate CountsOnAllFinished(pc: Pc) {
    || (pc.Cancel? && pc.todo == map[] && !pc.waiting)
    || (pc.ListToPrune? && pc.making)
    || (pc.Prune? && pc.making)
    || pc.MakeBuilder?
  }

  ghost predicate BuildInv(m: Machine) {
    && AtMostOneUnfinished(m.store.builders)
    && (CountsOnAllFinished(m.pc) ==> Unfinished(m.store.builders) == {})
  }

  lemma BuilderCallKeepsBuildInv(h: Hashes, m: Machine, a: Action)
    requires BuildInv(m)
    ensures BuildInv(BuilderCall(h, m, a))
  {
    var m' := BuilderCall(h, m, a);
    assert m.pc.Cancel? && a.Touch? ==> Unfinished(m'.store.builders) <= Unfinished(m.store.builders);
    assert m.pc.Prune? ==> Unfinished(m'.store.builders) <= Unfinished(m.store.builders);
    assert m.pc.MakeBuilder? ==> Unfinished(m'.store.builders) <= Unfinished(m.store.builders) + {m.store.next};
    if m.pc.ListToCancel? && m'.pc.Cancel? && m'.pc.todo == map[] {
      assert m'.pc.todo.Keys == Unfinished(m.store.builders);
    }
  }

  lemma NextKeepsBuildInv(h: Hashes, m: Machine, a: Action)
    requires BuildInv(m)
    ensures BuildInv(Next(h, m, a))
  {
    var m' := Next(h, m, a);
    if a.BuilderMoves? || a.BuilderGone? {
      assert Unfinished(m'.store.builders) <= Unfinished(m.store.builders);
    } else if !ServingSide(m.pc) {
      BuilderCallKeepsBuildInv(h, m, a);
    }
  }

  /** Main result: at every moment of every run at most one builder of the function is unfinished. */
  lemma {:induction false} SingleBuild(h: Hashes, spec: FunctionSpec, acts: seq<Action>)
    ensures BuildInv(Run(h, spec, acts))
    ensures AtMostOneUnfinished(Run(h, spec, acts).store.builders)
  {
    if acts != [] {
      SingleBuild(h, spec, acts[..|acts| - 1]);
      NextKeepsBuildInv(h, Run(h, spec, acts[..|acts| - 1]), acts[|acts| - 1]);
    }
  }
}

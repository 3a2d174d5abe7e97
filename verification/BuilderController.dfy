/** The Builder controller and its timer goroutines, for one builder: `Reconcile` interleaved call by call
    with any number of goroutines that enforce the build's deadline, on copies that may be stale.

    As in the other machines `Step` is total and a disabled action changes nothing. */
module BuilderController {
  import opened Api

  const SECOND: nat := 1_000_000_000

  /** The builder's fixed data: when it was created, and how long it may take. */
  datatype Params = Params(created: nat, timeout: Option<nat>) {
    predicate Late(now: nat) {
      timeout.Some? && now > created + timeout.value
    }
  }

  /** The stored object; a copy of it in some actor's memory looks the same. */
  datatype Object = Object(status: BuilderStatus, version: nat)

  datatype Pc =
    | Idle
    | Fetched(copy: Object)
    | Arming(copy: Object)
    | Asking(copy: Object)
    | WriteTimeout(copy: Object)
    | WriteResult(copy: Object, result: BuilderStatus)
    | ResultWritten
    | WriteReset(copy: Object)
    | StartingBuild(copy: Object)
    | WriteBuilding(copy: Object)
    | NoBuilder

  /** What the goroutine that serves a timer is doing. */
  datatype Stage =
    | Waiting
    | Fired
    | Holding(copy: Object)
    | Retrying
    | Finishing
    | Finished

  /** A timer with its goroutine: when it is due if it is armed, whether its channel holds a tick. */
  datatype Watch = Watch(due: Option<nat>, ticked: bool, stage: Stage, retries: nat)

  /** `past` holds every object that was ever stored: a Get is served from a cache and may return any of them. */
  datatype Machine = Machine(
    store: Option<Object>,
    past: set<Object>,
    now: nat,
    pc: Pc,
    watches: map<nat, Watch>,
    entry: Option<nat>,
    nextWatch: nat,
    watched: bool)

  datatype Action =
    // Reconcile
    | Fetch(read: Option<Object>)
    | Check
    | Arm
    | Answer(result: Option<BuilderStatus>)
    | Write
    | Begin
    | StopTimer
    | Fail
    // the goroutine of timer w
    | Tick(w: nat)
    | Wake(w: nat)
    | WatchGet(w: nat, ok: bool, read: Option<Object>)
    | WatchWrite(w: nat, applied: bool, ok: bool)
    | Retry(w: nat)
    | WatchStop(w: nat)
    // everything else
    | Advance(elapsed: nat)
    | SpecChanges
    | Vanish
    | Restart

  /** Waiting time before the next try, in seconds, after so many earlier retries. */
  function Delay(retries: nat): nat {
    if retries <= 8 then Pow2(retries) else 300
  }

  function Pow2(n: nat): nat {
    if n == 0 then 1 else 2 * Pow2(n - 1)
  }

  function TotalDelay(n: nat): nat {
    if n == 0 then 0 else TotalDelay(n - 1) + Delay(n - 1)
  }

  function TimedOut(st: BuilderStatus): BuilderStatus {
    st.(state := Timeout, reason := "Timeout", message := "Timeout")
  }

  /** May a Get find this? Any object that was ever stored; nothing only if there is none any more. */
  predicate Readable(m: Machine, read: Option<Object>) {
    if read.None? then m.store.None? else read.value in m.past
  }

  /** A status write from a copy: refused unless the copy's version is the stored one. */
  predicate Accepts(m: Machine, copy: Object) {
    m.store.Some? && m.store.value.version == copy.version
  }

  function Stored(m: Machine, st: BuilderStatus): Object
    requires m.store.Some?
  {
    Object(st, if st == m.store.value.status then m.store.value.version else m.store.value.version + 1)
  }

  function Put(m: Machine, st: BuilderStatus): Machine
    requires m.store.Some?
  {
    m.(store := Some(Stored(m, st)), past := m.past + {Stored(m, st)})
  }

  /** Stops and forgets the timer that the controller has on record. */
  function Stop(m: Machine): Machine {
    if m.entry.None? || m.entry.value !in m.watches then m
    else m.(watches := m.watches[m.entry.value := m.watches[m.entry.value].(due := None)], entry := None)
  }

  function ReconcileStep(p: Params, m: Machine, a: Action): Machine {
    match (m.pc, a)
    case (Idle, Fetch(read)) =>
      if !Readable(m, read) then m
      else m.(pc := if read.Some? then Fetched(read.value) else NoBuilder)
    case (NoBuilder, StopTimer) => Stop(m).(pc := Idle)
    case (Fetched(copy), Check) =>
      m.(pc := if IsCompleted(copy.status.state) then Idle
               else if p.Late(m.now) then WriteTimeout(copy)
               else Arming(copy))
    case (Arming(copy), Arm) =>
      var next := if copy.status.phase != NoPhase && copy.status.state != NoState then Asking(copy) else WriteReset(copy);
      if p.timeout.None? || p.Late(m.now) then m.(pc := next)
      else if m.entry.Some? then m.(pc := next, watched := true)
      else m.(
        pc := next,
        watches := m.watches[m.nextWatch := Watch(Some(p.created + p.timeout.value), false, Waiting, 0)],
        entry := Some(m.nextWatch),
        nextWatch := m.nextWatch + 1,
        watched := true)
    case (Asking(copy), Answer(result)) =>
      if result.None? then m.(pc := Idle)
      else if !IsCompleted(result.value.state) || !MayFollow(copy.status, result.value) then m
      else m.(pc := WriteResult(copy, result.value))
    case (WriteTimeout(copy), Write) =>
      if Accepts(m, copy) then Put(m, TimedOut(copy.status)).(pc := Idle) else m.(pc := Idle)
    case (WriteResult(copy, result), Write) =>
      if !Accepts(m, copy) then m.(pc := Idle)
      else
        var st := copy.status.(state := result.state, reason := result.reason,
                               message := result.message, output := result.output);
        Put(m, st).(pc := ResultWritten)
    case (ResultWritten, StopTimer) => Stop(m).(pc := Idle)
    case (WriteReset(copy), Write) =>
      if Accepts(m, copy)
      then var m' := Put(m, EMPTY_BUILDER_STATUS); m'.(pc := StartingBuild(m'.store.value))
      else m.(pc := Idle)
    case (StartingBuild(copy), Begin) => m.(pc := WriteBuilding(copy))
    case (WriteBuilding(copy), Write) =>
      if Accepts(m, copy) then Put(m, copy.status.(phase := BuildPhase, state := Building)).(pc := Idle)
      else m.(pc := Idle)
    case (_, Fail) => m.(pc := Idle)
    case _ => m
  }

  function WithWatch(m: Machine, w: nat, watch: Watch): Machine {
    m.(watches := m.watches[w := watch])
  }

  function WatchStep(p: Params, m: Machine, a: Action, w: nat): Machine
    requires w in m.watches
  {
    var x := m.watches[w];
    match (x.stage, a)
    case (_, Tick(_)) =>
      if x.due.Some? && m.now >= x.due.value then WithWatch(m, w, x.(due := None, ticked := true)) else m
    case (Waiting, Wake(_)) =>
      if x.ticked then WithWatch(m, w, x.(ticked := false, stage := Fired)) else m
    case (Fired, WatchGet(_, ok, read)) =>
      if !Readable(m, read) then m
      else WithWatch(m, w, x.(stage :=
        if !ok then Retrying
        else if read.None? || IsCompleted(read.value.status.state) then Finishing
        else Holding(read.value)))
    case (Holding(copy), WatchWrite(_, applied, ok)) =>
      if applied && Accepts(m, copy)
      then WithWatch(Put(m, TimedOut(copy.status)), w, x.(stage := if ok then Finishing else Retrying))
      else WithWatch(m, w, x.(stage := Retrying))
    case (Retrying, Retry(_)) =>
      WithWatch(m, w, Watch(Some(m.now + Delay(x.retries) * SECOND), x.ticked, Waiting, x.retries + 1))
    case (Finishing, WatchStop(_)) =>
      WithWatch(Stop(m), w, (if m.entry == Some(w) then x.(due := None) else x).(stage := Finished))
    case _ => m
  }

  function EnvStep(m: Machine, a: Action): Machine {
    match a
    case Advance(elapsed) => m.(now := m.now + elapsed)
    case SpecChanges =>
      if m.store.None? then m
      else
        var o := m.store.value.(version := m.store.value.version + 1);
        m.(store := Some(o), past := m.past + {o})
    case Vanish => m.(store := None)
    case Restart => m.(pc := Idle, watches := map[], entry := None, watched := false)
    case _ => m
  }

  function Step(p: Params, m: Machine, a: Action): Machine {
    match a
    case Tick(w) => if w in m.watches then WatchStep(p, m, a, w) else m
    case Wake(w) => if w in m.watches then WatchStep(p, m, a, w) else m
    case WatchGet(w, _, _) => if w in m.watches then WatchStep(p, m, a, w) else m
    case WatchWrite(w, _, _) => if w in m.watches then WatchStep(p, m, a, w) else m
    case Retry(w) => if w in m.watches then WatchStep(p, m, a, w) else m
    case WatchStop(w) => if w in m.watches then WatchStep(p, m, a, w) else m
    case Advance(_) => EnvStep(m, a)
    case SpecChanges => EnvStep(m, a)
    case Vanish => EnvStep(m, a)
    case Restart => EnvStep(m, a)
    case _ => ReconcileStep(p, m, a)
  }

  function Init(p: Params): Machine {
    Machine(Some(Object(EMPTY_BUILDER_STATUS, 0)), {Object(EMPTY_BUILDER_STATUS, 0)}, p.created, Idle, map[], None, 0, false)
  }

  function Run(p: Params, acts: seq<Action>): Machine {
    if acts == [] then Init(p) else Step(p, Run(p, acts[..|acts| - 1]), acts[|acts| - 1])
  }

  // ---------- Single steps, in words ----------

  predicate Writes(pc: Pc) {
    pc.WriteTimeout? || pc.WriteResult? || pc.WriteReset? || pc.WriteBuilding?
  }

  /** A copy is written back exactly if it is up to date; otherwise nothing changes and the attempt is over. */
  lemma WritesAreChecked(p: Params, m: Machine)
    requires Writes(m.pc)
    ensures var m', o := Step(p, m, Write), m.pc.copy;
      if m.store.None? || m.store.value.version != o.version then m' == m.(pc := Idle)
      else
        && m'.store.Some? && m'.watches == m.watches && m'.entry == m.entry
        && m'.store.value.version
             == m.store.value.version + (if m'.store.value.status == m.store.value.status then 0 else 1)
        && (m.pc.WriteTimeout? ==>
              && m'.pc.Idle?
              && m'.store.value.status == BuilderStatus(o.status.phase, Timeout, "Timeout", "Timeout", o.status.output))
        && (m.pc.WriteResult? ==>
              && m'.pc.ResultWritten?
              && m'.store.value.status == BuilderStatus(
                   o.status.phase, m.pc.result.state, m.pc.result.reason, m.pc.result.message, m.pc.result.output))
        && (m.pc.WriteReset? ==>
              && m'.pc == StartingBuild(m'.store.value)
              && m'.store.value.status == BuilderStatus(NoPhase, NoState, "", "", None))
        && (m.pc.WriteBuilding? ==>
              && m'.pc.Idle?
              && m'.store.value.status
                   == BuilderStatus(BuildPhase, Building, o.status.reason, o.status.message, o.status.output))
  {
  }

  /** What has been read decides: nothing to do for a finished builder; too late for one past its deadline; otherwise the
      timer, and then the result of the build or its start. */
  lemma ReadingDecides(p: Params, m: Machine)
    ensures m.pc.Fetched? ==>
      var st := m.pc.copy.status;
      Step(p, m, Check) == m.(pc :=
        if st.state != NoState && st.state != Building then Idle
        else if p.timeout.Some? && m.now > p.created + p.timeout.value then WriteTimeout(m.pc.copy)
        else Arming(m.pc.copy))
    ensures m.pc.Arming? ==>
      Step(p, m, Arm).store == m.store && Step(p, m, Arm).pc == (
        if m.pc.copy.status.phase == NoPhase || m.pc.copy.status.state == NoState then WriteReset(m.pc.copy)
        else Asking(m.pc.copy))
    ensures m.pc.Asking? ==> Step(p, m, Answer(None)) == m.(pc := Idle)
    ensures Step(p, m, Fail) == m.(pc := Idle)
  {
  }

  /** A goroutine that has heard its tick reads, and writes only over an unfinished builder and an unchanged version;
      whatever fails is retried. */
  lemma GoroutineReadsAndWrites(p: Params, m: Machine, w: nat, applied: bool, ok: bool, read: Option<Object>)
    requires w in m.watches
    ensures m.watches[w].stage.Fired? && Readable(m, read) ==>
      var m' := Step(p, m, WatchGet(w, ok, read));
      && m'.store == m.store && w in m'.watches
      && m'.watches[w].stage == (
           if !ok then Retrying
           else if read.None? || (read.value.status.state != NoState && read.value.status.state != Building) then Finishing
           else Holding(read.value))
    ensures m.watches[w].stage.Holding? ==>
      var m', o := Step(p, m, WatchWrite(w, applied, ok)), m.watches[w].stage.copy;
      && w in m'.watches
      && (if applied && m.store.Some? && m.store.value.version == o.version
          then
            && m'.store.Some?
            && m'.store.value.status == BuilderStatus(o.status.phase, Timeout, "Timeout", "Timeout", o.status.output)
            && m'.watches[w].stage == (if ok then Finishing else Retrying)
          else m'.store == m.store && m'.watches[w].stage == Retrying)
  {
  }

  // ---------- Versions make stale copies harmless ----------

  ghost predicate Snapshot(m: Machine, copy: Object) {
    m.store.Some? ==>
      && copy.version <= m.store.value.version
      && (copy.version == m.store.value.version ==> copy.status == m.store.value.status)
  }

  predicate HasCopy(pc: Pc) {
    !pc.Idle? && !pc.ResultWritten? && !pc.NoBuilder?
  }

  predicate Sound(st: BuilderStatus) {
    && (st.state == Building ==> st.phase == BuildPhase)
    && st.state in {NoState, Building, Succeeded, Failed, Timeout, Canceled}
  }

  /** Nothing more can happen to the builder's status. */
  predicate Over(m: Machine) {
    m.store.None? || IsCompleted(m.store.value.status.state)
  }

  /** What was stored once is a snapshot, and if it was finished the builder is. */
  ghost predicate PastInv(m: Machine) {
    && (m.store.Some? ==> m.store.value in m.past)
    && forall o :: o in m.past ==> Snapshot(m, o) && Sound(o.status) && (IsCompleted(o.status.state) ==> Over(m))
  }

  ghost predicate PcInv(m: Machine) {
    && (HasCopy(m.pc) ==> Snapshot(m, m.pc.copy) && Sound(m.pc.copy.status))
    && (HasCopy(m.pc) && !m.pc.Fetched? ==> !IsCompleted(m.pc.copy.status.state))
    && (m.pc.Asking? || m.pc.WriteResult? ==> m.pc.copy.status.state == Building)
    && (m.pc.WriteResult? ==> IsCompleted(m.pc.result.state) && Sound(m.pc.result))
    && (m.pc.WriteReset? || m.pc.StartingBuild? || m.pc.WriteBuilding? ==> m.pc.copy.status.state == NoState)
  }

  ghost predicate Held(m: Machine, copy: Object) {
    Snapshot(m, copy) && Sound(copy.status) && !IsCompleted(copy.status.state)
  }

  ghost predicate HoldingInv(m: Machine) {
    forall w :: w in m.watches && m.watches[w].stage.Holding? ==> Held(m, m.watches[w].stage.copy)
  }

  ghost predicate CopyInv(m: Machine) {
    PastInv(m) && PcInv(m) && HoldingInv(m)
  }

  /** A step leaves the status alone, removes the builder, or moves its status on. */
  predicate MovesOn(before: Option<Object>, after: Option<Object>) {
    after.Some? ==>
      && before.Some?
      && before.value.version <= after.value.version
      && (before.value.version == after.value.version ==> before == after)
      && (before.value.status == after.value.status || MayFollow(before.value.status, after.value.status))
  }

  /** The only thing a step may add to the past is what it has stored, and that is sound. */
  predicate Remembers(m: Machine, m': Machine) {
    && m'.past == m.past + (if m'.store.Some? then {m'.store.value} else {})
    && (m'.store.Some? ==> Sound(m'.store.value.status))
  }

  lemma SnapshotStays(m: Machine, m': Machine, copy: Object)
    requires Snapshot(m, copy) && MovesOn(m.store, m'.store)
    ensures Snapshot(m', copy)
  {
  }

  lemma PastStays(m: Machine, m': Machine)
    requires PastInv(m) && MovesOn(m.store, m'.store) && Remembers(m, m')
    ensures PastInv(m')
  {
    forall o | o in m'.past
      ensures Snapshot(m', o) && Sound(o.status) && (IsCompleted(o.status.state) ==> Over(m'))
    {
      if o in m.past {
        SnapshotStays(m, m', o);
      }
    }
  }

  /** Copies held by goroutines stay snapshots when the status moves on. */
  lemma HoldingsStay(m: Machine, m': Machine)
    requires HoldingInv(m) && MovesOn(m.store, m'.store)
    requires forall w :: w in m'.watches && m'.watches[w].stage.Holding? ==>
      w in m.watches && m.watches[w].stage == m'.watches[w].stage
    ensures HoldingInv(m')
  {
    forall w | w in m'.watches && m'.watches[w].stage.Holding? ensures Held(m', m'.watches[w].stage.copy) {
      assert Held(m, m.watches[w].stage.copy);
    }
  }

  lemma ReconcileHoldsNothingNew(p: Params, m: Machine, a: Action)
    ensures var m' := ReconcileStep(p, m, a);
      forall w :: w in m'.watches && m'.watches[w].stage.Holding? ==>
        w in m.watches && m.watches[w].stage == m'.watches[w].stage
  {
  }

  /** Only writes store anything. */
  lemma ReconcileStoresByWriting(p: Params, m: Machine, a: Action)
    requires !a.Write?
    ensures ReconcileStep(p, m, a).store == m.store && ReconcileStep(p, m, a).past == m.past
  {
  }

  lemma ReconcileMovesOn(p: Params, m: Machine, a: Action)
    requires PcInv(m)
    requires m.store.Some? ==> m.store.value in m.past && Sound(m.store.value.status)
    ensures MovesOn(m.store, ReconcileStep(p, m, a).store) && Remembers(m, ReconcileStep(p, m, a))
  {
    if !a.Write? {
      ReconcileStoresByWriting(p, m, a);
    }
  }

  lemma ReadingKeepsPcInv(p: Params, m: Machine, a: Action)
    requires PastInv(m) && PcInv(m) && (m.pc.Idle? || m.pc.Fetched? || m.pc.Arming? || m.pc.Asking?)
    ensures PcInv(ReconcileStep(p, m, a))
  {
  }

  lemma WritingKeepsPcInv(p: Params, m: Machine, a: Action)
    requires PcInv(m) && !(m.pc.Idle? || m.pc.Fetched? || m.pc.Arming? || m.pc.Asking?)
    ensures PcInv(ReconcileStep(p, m, a))
  {
  }

  lemma ReconcileKeepsCopyInv(p: Params, m: Machine, a: Action)
    requires CopyInv(m)
    ensures CopyInv(ReconcileStep(p, m, a)) && MovesOn(m.store, ReconcileStep(p, m, a).store)
  {
    ReconcileMovesOn(p, m, a);
    PastStays(m, ReconcileStep(p, m, a));
    ReconcileHoldsNothingNew(p, m, a);
    HoldingsStay(m, ReconcileStep(p, m, a));
    if m.pc.Idle? || m.pc.Fetched? || m.pc.Arming? || m.pc.Asking? {
      ReadingKeepsPcInv(p, m, a);
    } else {
      WritingKeepsPcInv(p, m, a);
    }
  }

  lemma WatchMovesOn(p: Params, m: Machine, a: Action, w: nat)
    requires CopyInv(m) && w in m.watches
    ensures var m' := WatchStep(p, m, a, w);
      && MovesOn(m.store, m'.store) && Remembers(m, m') && m'.pc == m.pc
  {
    if m.watches[w].stage.Holding? {
      assert Held(m, m.watches[w].stage.copy);
    }
  }

  /** A goroutine that newly holds a copy has just read it, and it was not finished. */
  lemma WatchHoldsWhatItRead(p: Params, m: Machine, a: Action, w: nat, v: nat)
    requires w in m.watches
    requires v in WatchStep(p, m, a, w).watches && WatchStep(p, m, a, w).watches[v].stage.Holding?
    ensures var m' := WatchStep(p, m, a, w);
      || (v in m.watches && m.watches[v].stage == m'.watches[v].stage)
      || (m'.store == m.store && m'.watches[v].stage.copy in m.past
          && !IsCompleted(m'.watches[v].stage.copy.status.state))
  {
  }

  lemma WatchKeepsHoldingInv(p: Params, m: Machine, a: Action, w: nat)
    requires CopyInv(m) && w in m.watches
    ensures HoldingInv(WatchStep(p, m, a, w))
  {
    var m' := WatchStep(p, m, a, w);
    WatchMovesOn(p, m, a, w);
    forall v | v in m'.watches && m'.watches[v].stage.Holding? ensures Held(m', m'.watches[v].stage.copy) {
      WatchHoldsWhatItRead(p, m, a, w, v);
      if v in m.watches && m.watches[v].stage == m'.watches[v].stage {
        assert Held(m, m.watches[v].stage.copy);
      }
    }
  }

  lemma PcStays(m: Machine, m': Machine)
    requires PcInv(m) && MovesOn(m.store, m'.store) && m'.pc == m.pc
    ensures PcInv(m')
  {
  }

  lemma WatchKeepsCopyInv(p: Params, m: Machine, a: Action, w: nat)
    requires CopyInv(m) && w in m.watches
    ensures CopyInv(WatchStep(p, m, a, w)) && MovesOn(m.store, WatchStep(p, m, a, w).store)
  {
    WatchMovesOn(p, m, a, w);
    PastStays(m, WatchStep(p, m, a, w));
    PcStays(m, WatchStep(p, m, a, w));
    WatchKeepsHoldingInv(p, m, a, w);
  }

  lemma EnvKeepsCopyInv(m: Machine, a: Action)
    requires CopyInv(m)
    ensures CopyInv(EnvStep(m, a)) && MovesOn(m.store, EnvStep(m, a).store)
  {
    var m' := EnvStep(m, a);
    assert MovesOn(m.store, m'.store);
    PastStays(m, m');
    HoldingsStay(m, m');
  }

  lemma StepKeepsCopyInv(p: Params, m: Machine, a: Action)
    requires CopyInv(m)
    ensures CopyInv(Step(p, m, a)) && MovesOn(m.store, Step(p, m, a).store)
  {
    match a
    case Tick(w) => if w in m.watches { WatchKeepsCopyInv(p, m, a, w); }
    case Wake(w) => if w in m.watches { WatchKeepsCopyInv(p, m, a, w); }
    case WatchGet(w, _, _) => if w in m.watches { WatchKeepsCopyInv(p, m, a, w); }
    case WatchWrite(w, _, _) => if w in m.watches { WatchKeepsCopyInv(p, m, a, w); }
    case Retry(w) => if w in m.watches { WatchKeepsCopyInv(p, m, a, w); }
    case WatchStop(w) => if w in m.watches { WatchKeepsCopyInv(p, m, a, w); }
    case Advance(_) => EnvKeepsCopyInv(m, a);
    case SpecChanges => EnvKeepsCopyInv(m, a);
    case Vanish => EnvKeepsCopyInv(m, a);
    case Restart => EnvKeepsCopyInv(m, a);
    case _ => ReconcileKeepsCopyInv(p, m, a);
  }

  lemma {:induction false} RunKeepsCopyInv(p: Params, acts: seq<Action>)
    ensures CopyInv(Run(p, acts))
  {
    if acts != [] {
      RunKeepsCopyInv(p, acts[..|acts| - 1]);
      StepKeepsCopyInv(p, Run(p, acts[..|acts| - 1]), acts[|acts| - 1]);
    }
  }

  /** Main result: in every interleaving, on copies however stale - a Get may return anything that was ever stored -
      each step either leaves the status alone or moves it from none to building to finished; a finished status is
      final. */
  lemma StatusOnlyMovesOn(p: Params, acts: seq<Action>, a: Action)
    ensures var before, after := Run(p, acts).store, Step(p, Run(p, acts), a).store;
      after.Some? ==>
        && before.Some?
        && (before.value.status == after.value.status || MayFollow(before.value.status, after.value.status))
        && (IsCompleted(before.value.status.state) ==> before.value.status == after.value.status)
        && Rank(before.value.status.state) <= Rank(after.value.status.state)
  {
    RunKeepsCopyInv(p, acts);
    StepKeepsCopyInv(p, Run(p, acts), a);
  }

  // ---------- A deadline in force is always watched over ----------

  /** The timer is armed, or has fired and not been heard yet, or its goroutine is at work. */
  predicate Alive(x: Watch) {
    || (x.stage.Waiting? && (x.due.Some? || x.ticked))
    || x.stage.Fired?
    || x.stage.Holding?
    || x.stage.Retrying?
  }

  ghost predicate GuardInv(m: Machine) {
    && (m.entry.Some? ==> m.entry.value in m.watches)
    && (m.pc.ResultWritten? || m.pc.NoBuilder? ==> Over(m))
    && (forall w :: w in m.watches ==> w < m.nextWatch)
    && (forall w :: w in m.watches && m.watches[w].stage.Finishing? ==> Over(m))
    && ((m.entry.Some? || m.watched) && !Over(m) ==> m.entry.Some? && Alive(m.watches[m.entry.value]))
  }

  lemma ArmingKeepsGuardInv(p: Params, m: Machine, a: Action)
    requires GuardInv(m) && m.pc.Arming?
    ensures GuardInv(ReconcileStep(p, m, a))
  {
  }

  lemma StoppingKeepsGuardInv(m: Machine)
    requires GuardInv(m) && Over(m)
    ensures GuardInv(Stop(m)) && GuardInv(Stop(m).(pc := Idle))
  {
  }

  /** Steps that touch neither timers nor their table. */
  lemma OthersKeepGuardInv(m: Machine, m': Machine)
    requires GuardInv(m) && MovesOn(m.store, m'.store)
    requires m'.watches == m.watches && m'.entry == m.entry && m'.nextWatch == m.nextWatch && m'.watched == m.watched
    requires m'.pc.ResultWritten? || m'.pc.NoBuilder? ==> Over(m')
    ensures GuardInv(m')
  {
  }

  lemma ReconcileLeavesTimers(p: Params, m: Machine, a: Action)
    requires CopyInv(m) && GuardInv(m) && !m.pc.Arming? && !a.StopTimer?
    ensures var m' := ReconcileStep(p, m, a);
      && m'.watches == m.watches && m'.entry == m.entry && m'.nextWatch == m.nextWatch && m'.watched == m.watched
      && (m'.pc.ResultWritten? || m'.pc.NoBuilder? ==> Over(m'))
  {
  }

  lemma ReconcileKeepsGuardInv(p: Params, m: Machine, a: Action)
    requires CopyInv(m) && GuardInv(m)
    ensures GuardInv(ReconcileStep(p, m, a))
  {
    if m.pc.Arming? {
      ArmingKeepsGuardInv(p, m, a);
    } else if a.StopTimer? {
      if m.pc.ResultWritten? || m.pc.NoBuilder? {
        StoppingKeepsGuardInv(m);
      }
    } else {
      ReconcileMovesOn(p, m, a);
      ReconcileLeavesTimers(p, m, a);
      OthersKeepGuardInv(m, ReconcileStep(p, m, a));
    }
  }

  /** One goroutine goes on, the rest stays as it is. */
  lemma WatchGoesOn(m: Machine, m': Machine, w: nat)
    requires GuardInv(m) && MovesOn(m.store, m'.store) && w in m.watches
    requires m'.pc == m.pc && m'.entry == m.entry && m'.nextWatch == m.nextWatch && m'.watched == m.watched
    requires m'.watches.Keys == m.watches.Keys && forall v :: v in m.watches && v != w ==> m'.watches[v] == m.watches[v]
    requires m'.watches[w].stage.Finishing? ==> Over(m')
    requires Alive(m.watches[w]) && !Over(m') ==> Alive(m'.watches[w])
    ensures GuardInv(m')
  {
  }

  lemma WatchLeavesOthers(p: Params, m: Machine, a: Action, w: nat)
    requires w in m.watches && !a.WatchStop?
    ensures var m' := WatchStep(p, m, a, w);
      && m'.pc == m.pc && m'.entry == m.entry && m'.nextWatch == m.nextWatch && m'.watched == m.watched
      && m'.watches.Keys == m.watches.Keys && (forall v :: v in m.watches && v != w ==> m'.watches[v] == m.watches[v])
  {
  }

  lemma WritingStaysAlive(p: Params, m: Machine, a: Action, w: nat)
    requires HoldingInv(m) && w in m.watches && m.watches[w].stage.Holding? && !a.WatchStop?
    ensures var m' := WatchStep(p, m, a, w);
      && w in m'.watches
      && (m'.watches[w].stage.Finishing? ==> Over(m'))
      && (!m'.watches[w].stage.Finishing? ==> Alive(m'.watches[w]))
  {
    assert Held(m, m.watches[w].stage.copy);
  }

  lemma WaitingStaysAlive(p: Params, m: Machine, a: Action, w: nat)
    requires PastInv(m) && GuardInv(m) && w in m.watches && !m.watches[w].stage.Holding? && !a.WatchStop?
    ensures var m' := WatchStep(p, m, a, w);
      && w in m'.watches
      && (m'.watches[w].stage.Finishing? ==> Over(m'))
      && (Alive(m.watches[w]) && !Over(m') ==> Alive(m'.watches[w]))
  {
  }

  lemma EndingKeepsGuardInv(p: Params, m: Machine, a: Action, w: nat)
    requires GuardInv(m) && w in m.watches && a.WatchStop?
    ensures GuardInv(WatchStep(p, m, a, w))
  {
    if m.watches[w].stage.Finishing? {
      StoppingKeepsGuardInv(m);
    }
  }

  lemma WatchKeepsGuardInv(p: Params, m: Machine, a: Action, w: nat)
    requires CopyInv(m) && GuardInv(m) && w in m.watches
    ensures GuardInv(WatchStep(p, m, a, w))
  {
    if a.WatchStop? {
      EndingKeepsGuardInv(p, m, a, w);
    } else {
      WatchMovesOn(p, m, a, w);
      WatchLeavesOthers(p, m, a, w);
      if m.watches[w].stage.Holding? {
        WritingStaysAlive(p, m, a, w);
      } else {
        WaitingStaysAlive(p, m, a, w);
      }
      WatchGoesOn(m, WatchStep(p, m, a, w), w);
    }
  }

  lemma StepKeepsGuardInv(p: Params, m: Machine, a: Action)
    requires CopyInv(m) && GuardInv(m)
    ensures GuardInv(Step(p, m, a))
  {
    match a
    case Tick(w) => if w in m.watches { WatchKeepsGuardInv(p, m, a, w); }
    case Wake(w) => if w in m.watches { WatchKeepsGuardInv(p, m, a, w); }
    case WatchGet(w, _, _) => if w in m.watches { WatchKeepsGuardInv(p, m, a, w); }
    case WatchWrite(w, _, _) => if w in m.watches { WatchKeepsGuardInv(p, m, a, w); }
    case Retry(w) => if w in m.watches { WatchKeepsGuardInv(p, m, a, w); }
    case WatchStop(w) => if w in m.watches { WatchKeepsGuardInv(p, m, a, w); }
    case Advance(_) =>
    case SpecChanges =>
    case Vanish =>
    case Restart =>
    case _ => ReconcileKeepsGuardInv(p, m, a);
  }

  lemma {:induction false} RunKeepsGuardInv(p: Params, acts: seq<Action>)
    ensures GuardInv(Run(p, acts))
  {
    if acts != [] {
      RunKeepsGuardInv(p, acts[..|acts| - 1]);
      RunKeepsCopyInv(p, acts[..|acts| - 1]);
      StepKeepsGuardInv(p, Run(p, acts[..|acts| - 1]), acts[|acts| - 1]);
    }
  }

  /** A Reconcile that gets to its timer before the deadline puts the builder under watch, and only a
      restart of the operator ends that. */
  lemma WatchBeginsAndLasts(p: Params, m: Machine, a: Action)
    ensures m.pc.Arming? && a == Arm && p.timeout.Some? && !p.Late(m.now) ==> Step(p, m, a).watched
    ensures m.watched && a != Restart ==> Step(p, m, a).watched
    ensures Step(p, m, a).watched && !m.watched ==> m.pc.Arming? && a == Arm && p.timeout.Some? && !p.Late(m.now)
  {
  }

  /** Main result: in every interleaving, as long as a builder under watch is not finished, the controller has
      a timer on record for it that is armed or has fired, or whose goroutine is writing or about to retry. */
  lemma DeadlineIsGuarded(p: Params, acts: seq<Action>)
    requires Run(p, acts).watched && !Over(Run(p, acts))
    ensures var m := Run(p, acts);
      && m.entry.Some?
      && m.entry.value in m.watches
      && Alive(m.watches[m.entry.value])
  {
    RunKeepsGuardInv(p, acts);
  }

  // ---------- When a timer is due ----------

  /** A timer that was never reset is due at the deadline; what is armed has no tick. */
  predicate WellTimed(p: Params, x: Watch) {
    x.due.Some? ==>
      && x.stage.Waiting? && !x.ticked && p.timeout.Some?
      && (x.retries == 0 ==> x.due.value == p.created + p.timeout.value)
  }

  ghost predicate DueInv(p: Params, m: Machine) {
    forall w :: w in m.watches ==> WellTimed(p, m.watches[w])
  }

  lemma ReconcileKeepsDueInv(p: Params, m: Machine, a: Action)
    requires DueInv(p, m)
    ensures DueInv(p, ReconcileStep(p, m, a))
  {
  }

  lemma WatchKeepsDueInv(p: Params, m: Machine, a: Action, w: nat)
    requires DueInv(p, m) && PaceInv(p, m) && w in m.watches
    ensures DueInv(p, WatchStep(p, m, a, w))
  {
    assert Paced(p, m.now, m.watches[w]);
  }

  lemma StepKeepsDueInv(p: Params, m: Machine, a: Action)
    requires DueInv(p, m) && PaceInv(p, m)
    ensures DueInv(p, Step(p, m, a))
  {
    match a
    case Tick(w) => if w in m.watches { WatchKeepsDueInv(p, m, a, w); }
    case Wake(w) => if w in m.watches { WatchKeepsDueInv(p, m, a, w); }
    case WatchGet(w, _, _) => if w in m.watches { WatchKeepsDueInv(p, m, a, w); }
    case WatchWrite(w, _, _) => if w in m.watches { WatchKeepsDueInv(p, m, a, w); }
    case Retry(w) => if w in m.watches { WatchKeepsDueInv(p, m, a, w); }
    case WatchStop(w) => if w in m.watches { WatchKeepsDueInv(p, m, a, w); }
    case Advance(_) =>
    case SpecChanges =>
    case Vanish =>
    case Restart =>
    case _ => ReconcileKeepsDueInv(p, m, a);
  }

  lemma {:induction false} RunKeepsDueInv(p: Params, acts: seq<Action>)
    ensures DueInv(p, Run(p, acts))
  {
    if acts != [] {
      RunKeepsDueInv(p, acts[..|acts| - 1]);
      RunKeepsPaceInv(p, acts[..|acts| - 1]);
      StepKeepsDueInv(p, Run(p, acts[..|acts| - 1]), acts[|acts| - 1]);
    }
  }

  /** Main result: in every run a timer that was never reset is due exactly when the time the build may take is over. */
  lemma TimersAreDueAtTheDeadline(p: Params, acts: seq<Action>, w: nat)
    requires w in Run(p, acts).watches
    requires Run(p, acts).watches[w].due.Some? && Run(p, acts).watches[w].retries == 0
    ensures p.timeout.Some? && Run(p, acts).watches[w].due == Some(p.created + p.timeout.value)
  {
    RunKeepsDueInv(p, acts);
    assert WellTimed(p, Run(p, acts).watches[w]);
  }

  /** For an unfinished builder under watch whose timer on record still waits for its first tick, the tick comes from
      the deadline on and not before. */
  lemma FirstTickComesAtTheDeadline(p: Params, acts: seq<Action>)
    requires Run(p, acts).watched && !Over(Run(p, acts))
    ensures var m := Run(p, acts);
      && m.entry.Some? && m.entry.value in m.watches
      && var w, x := m.entry.value, m.watches[m.entry.value];
        x.stage.Waiting? && !x.ticked && x.retries == 0 ==>
          && p.timeout.Some? && w in Step(p, m, Tick(w)).watches
          && (Step(p, m, Tick(w)).watches[w].ticked <==> m.now >= p.created + p.timeout.value)
  {
    DeadlineIsGuarded(p, acts);
    var w := Run(p, acts).entry.value;
    if Run(p, acts).watches[w].due.Some? && Run(p, acts).watches[w].retries == 0 {
      TimersAreDueAtTheDeadline(p, acts, w);
    }
  }

  /** A retry comes after the delay for as many retries as there were: one second, then twice as long each time, and at
      most five minutes. */
  lemma RetryComesAfterTheDelay(p: Params, m: Machine, w: nat)
    requires w in m.watches && m.watches[w].stage.Retrying?
    ensures var m' := Step(p, m, Retry(w));
      && w in m'.watches && m'.watches[w].retries == m.watches[w].retries + 1 && m'.watches[w].stage.Waiting?
      && m'.watches[w].due == Some(m.now +
           (if m.watches[w].retries <= 8 then Pow2(m.watches[w].retries) else 300) * 1_000_000_000)
      && m'.store == m.store && m'.entry == m.entry
  {
  }

  lemma PowersOfTwo(n: nat)
    ensures Pow2(0) == 1 && Pow2(n + 1) == 2 * Pow2(n)
  {
  }

  // ---------- Retries ----------

  lemma {:induction false} Pow2Grows(n: nat, k: nat)
    requires n <= k
    ensures 1 <= Pow2(n) <= Pow2(k)
    decreases k
  {
    if n < k {
      Pow2Grows(n, k - 1);
    } else if n > 0 {
      Pow2Grows(n - 1, n - 1);
    }
  }

  lemma DelaysGrowUpToFiveMinutes(n: nat)
    ensures 1 <= Delay(n) <= Delay(n + 1) <= 300
  {
    assert Pow2(8) == 256 by {
      assert Pow2(4) == 16;
    }
    if n + 1 <= 8 {
      Pow2Grows(n, n + 1);
      Pow2Grows(n + 1, 8);
    } else if n <= 8 {
      Pow2Grows(n, 8);
    }
  }

  /** Closed form of the time spent between tries, in seconds. */
  lemma {:induction false} TotalDelayIs(n: nat)
    ensures TotalDelay(n) == if n <= 9 then Pow2(n) - 1 else 511 + 300 * (n - 9)
  {
    if n > 0 {
      TotalDelayIs(n - 1);
      if n == 10 {
        assert Pow2(9) == 512 by {
          assert Pow2(3) == 8;
          assert Pow2(6) == 64;
        }
      }
    }
  }

  function NotBefore(p: Params, retries: nat): nat {
    p.created + (if p.timeout.Some? then p.timeout.value else 0) + TotalDelay(retries) * SECOND
  }

  ghost predicate Paced(p: Params, now: nat, x: Watch) {
    && p.timeout.Some?
    && (x.due.Some? ==> x.due.value >= NotBefore(p, x.retries))
    && (x.ticked || x.stage.Fired? || x.stage.Holding? || x.stage.Retrying? ==> now >= NotBefore(p, x.retries))
    && (x.due.Some? || x.ticked ==> x.stage.Waiting?)
    && !(x.due.Some? && x.ticked)
  }

  ghost predicate PaceInv(p: Params, m: Machine) {
    forall w :: w in m.watches ==> Paced(p, m.now, m.watches[w])
  }

  lemma RetryIsPaced(p: Params, now: nat, x: Watch)
    requires Paced(p, now, x) && x.stage.Retrying?
    ensures Paced(p, now, Watch(Some(now + Delay(x.retries) * SECOND), x.ticked, Waiting, x.retries + 1))
  {
    assert TotalDelay(x.retries + 1) == TotalDelay(x.retries) + Delay(x.retries);
  }

  lemma StopKeepsPaceInv(p: Params, m: Machine)
    requires PaceInv(p, m)
    ensures PaceInv(p, Stop(m))
  {
  }

  lemma WatchKeepsPaceInv(p: Params, m: Machine, a: Action, w: nat)
    requires PaceInv(p, m) && w in m.watches
    ensures PaceInv(p, WatchStep(p, m, a, w))
  {
    StopKeepsPaceInv(p, m);
    if m.watches[w].stage.Retrying? {
      RetryIsPaced(p, m.now, m.watches[w]);
    }
  }

  lemma ReconcileKeepsPaceInv(p: Params, m: Machine, a: Action)
    requires PaceInv(p, m)
    ensures PaceInv(p, ReconcileStep(p, m, a))
  {
    StopKeepsPaceInv(p, m);
    assert TotalDelay(0) == 0;
  }

  lemma StepKeepsPaceInv(p: Params, m: Machine, a: Action)
    requires PaceInv(p, m)
    ensures PaceInv(p, Step(p, m, a))
  {
    match a
    case Tick(w) => if w in m.watches { WatchKeepsPaceInv(p, m, a, w); }
    case Wake(w) => if w in m.watches { WatchKeepsPaceInv(p, m, a, w); }
    case WatchGet(w, _, _) => if w in m.watches { WatchKeepsPaceInv(p, m, a, w); }
    case WatchWrite(w, _, _) => if w in m.watches { WatchKeepsPaceInv(p, m, a, w); }
    case Retry(w) => if w in m.watches { WatchKeepsPaceInv(p, m, a, w); }
    case WatchStop(w) => if w in m.watches { WatchKeepsPaceInv(p, m, a, w); }
    case Advance(_) =>
    case SpecChanges =>
    case Vanish =>
    case Restart =>
    case _ => ReconcileKeepsPaceInv(p, m, a);
  }

  lemma {:induction false} RunKeepsPaceInv(p: Params, acts: seq<Action>)
    ensures PaceInv(p, Run(p, acts))
  {
    if acts != [] {
      RunKeepsPaceInv(p, acts[..|acts| - 1]);
      StepKeepsPaceInv(p, Run(p, acts[..|acts| - 1]), acts[|acts| - 1]);
    }
  }

  /** A goroutine that has retried n times tries again no earlier than the deadline plus all n waiting times;
      in particular no goroutine ends a build before its deadline. */
  lemma GoroutineKeepsPace(p: Params, acts: seq<Action>, w: nat)
    requires w in Run(p, acts).watches && Run(p, acts).watches[w].stage.Holding?
    ensures p.timeout.Some?
    ensures var n := Run(p, acts).watches[w].retries;
      Run(p, acts).now >= p.created + p.timeout.value
        + (if n <= 9 then Pow2(n) - 1 else 511 + 300 * (n - 9)) * SECOND
  {
    RunKeepsPaceInv(p, acts);
    TotalDelayIs(Run(p, acts).watches[w].retries);
  }
}

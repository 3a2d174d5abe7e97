/** The Serving controller and the goroutine that enforces the start deadline, for one serving, call by call.
    `Step` is total: a disabled action changes nothing. */
module ServingController {
  import opened Api

  datatype Params = Params(created: nat, timeout: Option<nat>) {
    predicate Late(now: nat) {
      timeout.Some? && now > created + timeout.value
    }
  }

  datatype Object = Object(status: ServingStatus, version: nat)

  datatype Pc =
    | Idle
    | Fetched(copy: Object)
    | WriteTimeout(copy: Object)
    | Arming(copy: Object)
    | Asking(copy: Object)
    | WriteResult(copy: Object, result: ServingStatus)
    | ResultWritten
    | CheckingAgain(copy: Object)
    | WriteLateTimeout(copy: Object)
    | WriteReset(copy: Object)
    | Launching(copy: Object)
    | WriteStarting(copy: Object)
    | NoServing

  datatype Stage = Waiting | Fired | Holding(copy: Object) | Finishing | Finished

  datatype Watch = Watch(due: Option<nat>, ticked: bool, stage: Stage)

  /** `past` holds every object that was ever stored: a Get is served from a cache and may return any of them. */
  datatype Machine = Machine(
    store: Option<Object>,
    past: set<Object>,
    now: nat,
    pc: Pc,
    watches: map<nat, Watch>,
    entry: Option<nat>,
    nextWatch: nat)

  datatype Action =
    | Fetch(read: Option<Object>)
    | Check
    | Arm
    | Answer(result: Option<ServingStatus>)
    | Write
    | Begin
    | StopTimer
    | Fail
    | Tick(w: nat)
    | Wake(w: nat)
    | WatchGet(w: nat, ok: bool, read: Option<Object>)
    | WatchWrite(w: nat, applied: bool)
    | WatchStop(w: nat)
    | Advance(elapsed: nat)
    | SpecChanges
    | Vanish
    | Restart

  /** May a Get find this? Any object that was ever stored; nothing only if there is none any more. */
  predicate Readable(m: Machine, read: Option<Object>) {
    if read.None? then m.store.None? else read.value in m.past
  }

  predicate Accepts(m: Machine, copy: Object) {
    m.store.Some? && m.store.value.version == copy.version
  }

  function Stored(m: Machine, st: ServingStatus): Object
    requires m.store.Some?
  {
    Object(st, if st == m.store.value.status then m.store.value.version else m.store.value.version + 1)
  }

  function Put(m: Machine, st: ServingStatus): Machine
    requires m.store.Some?
  {
    m.(store := Some(Stored(m, st)), past := m.past + {Stored(m, st)})
  }

  function Stop(m: Machine): Machine {
    if m.entry.None? || m.entry.value !in m.watches then m
    else m.(watches := m.watches[m.entry.value := m.watches[m.entry.value].(due := None)], entry := None)
  }

  function ReconcileStep(p: Params, m: Machine, a: Action): Machine {
    match (m.pc, a)
    case (Idle, Fetch(read)) =>
      if !Readable(m, read) then m
      else m.(pc := if read.Some? then Fetched(read.value) else NoServing)
    case (NoServing, StopTimer) => Stop(m).(pc := Idle)
    case (Fetched(copy), Check) =>
      m.(pc := if !p.Late(m.now) then Arming(copy)
               else if IsStarting(copy.status.state) then WriteTimeout(copy)
               else Idle)
    case (WriteTimeout(copy), Write) =>
      if Accepts(m, copy) then Put(m, copy.status.(state := Timeout)).(pc := Idle) else m.(pc := Idle)
    case (Arming(copy), Arm) =>
      var next := if copy.status.phase != NoPhase && copy.status.state != NoState then Asking(copy) else CheckingAgain(copy);
      if !IsStarting(copy.status.state) || p.timeout.None? || p.Late(m.now) || m.entry.Some? then m.(pc := next)
      else m.(
        pc := next,
        watches := m.watches[m.nextWatch := Watch(Some(p.created + p.timeout.value), false, Waiting)],
        entry := Some(m.nextWatch),
        nextWatch := m.nextWatch + 1)
    case (Asking(copy), Answer(result)) =>
      if result.None? then m.(pc := Idle)
      else if !(result.value.state in {Running, Failed}) then m
      else if result.value.state == copy.status.state && result.value.reason == copy.status.reason
              && result.value.message == copy.status.message then m.(pc := Idle)
      else m.(pc := WriteResult(copy, result.value))
    case (WriteResult(copy, result), Write) =>
      if Accepts(m, copy)
      then Put(m, copy.status.(state := result.state, reason := result.reason, message := result.message)).(pc := ResultWritten)
      else m.(pc := Idle)
    case (ResultWritten, StopTimer) => Stop(m).(pc := Idle)
    case (CheckingAgain(copy), Check) =>
      m.(pc := if p.Late(m.now) then WriteLateTimeout(copy) else WriteReset(copy))
    case (WriteLateTimeout(copy), Write) =>
      if Accepts(m, copy) then Put(m, copy.status.(phase := ServingPhase, state := Timeout)).(pc := Idle)
      else m.(pc := Idle)
    case (WriteReset(copy), Write) =>
      if Accepts(m, copy)
      then var m' := Put(m, EMPTY_SERVING_STATUS); m'.(pc := Launching(m'.store.value))
      else m.(pc := Idle)
    case (Launching(copy), Begin) => m.(pc := WriteStarting(copy))
    case (WriteStarting(copy), Write) =>
      if Accepts(m, copy) then Put(m, copy.status.(phase := ServingPhase, state := Starting)).(pc := Idle)
      else m.(pc := Idle)
    case (_, Fail) => m.(pc := Idle)
    case _ => m
  }

  function WatchStep(m: Machine, a: Action, w: nat): Machine
    requires w in m.watches
  {
    var x := m.watches[w];
    match (x.stage, a)
    case (_, Tick(_)) =>
      if x.due.Some? && m.now >= x.due.value
      then m.(watches := m.watches[w := x.(due := None, ticked := true)]) else m
    case (Waiting, Wake(_)) =>
      if x.ticked then m.(watches := m.watches[w := x.(ticked := false, stage := Fired)]) else m
    case (Fired, WatchGet(_, ok, read)) =>
      if !Readable(m, read) then m
      else m.(watches := m.watches[w := x.(stage :=
        if !ok || read.None? || !IsStarting(read.value.status.state) then Finishing else Holding(read.value))])
    case (Holding(copy), WatchWrite(_, applied)) =>
      var m' := if applied && Accepts(m, copy) then Put(m, copy.status.(state := Timeout)) else m;
      m'.(watches := m.watches[w := x.(stage := Finishing)])
    case (Finishing, WatchStop(_)) =>
      var m' := Stop(m);
      m'.(watches := m'.watches[w := m'.watches[w].(stage := Finished)])
    case _ => m
  }

  function EnvStep(m: Machine, a: Action): Machine {
    match a
    case Advance(elapsed) => m.(now := m.now + elapsed)
    case SpecChanges =>
      if m.store.None? then m
      else
        var o := m.store.value.(version := m.store.value.version + 1);
        m.(store := Some(o), past := m.past + {o})
    case Vanish => m.(store := None)
    case Restart => m.(pc := Idle, watches := map[], entry := None)
    case _ => m
  }

  predicate ByWatch(a: Action) {
    a.Tick? || a.Wake? || a.WatchGet? || a.WatchWrite? || a.WatchStop?
  }

  predicate ByEnv(a: Action) {
    a.Advance? || a.SpecChanges? || a.Vanish? || a.Restart?
  }

  function Step(p: Params, m: Machine, a: Action): Machine {
    if ByWatch(a) then (if a.w in m.watches then WatchStep(m, a, a.w) else m)
    else if ByEnv(a) then EnvStep(m, a)
    else ReconcileStep(p, m, a)
  }

  function Init(p: Params): Machine {
    var o := Object(EMPTY_SERVING_STATUS, 0);
    Machine(Some(o), {o}, p.created, Idle, map[], None, 0)
  }

  function Run(p: Params, acts: seq<Action>): Machine {
    if acts == [] then Init(p) else Step(p, Run(p, acts[..|acts| - 1]), acts[|acts| - 1])
  }

  // ---------- Single steps, in words ----------

  predicate Writes(pc: Pc) {
    pc.WriteTimeout? || pc.WriteResult? || pc.WriteLateTimeout? || pc.WriteReset? || pc.WriteStarting?
  }

  /** A copy is written back exactly if it is up to date; otherwise nothing changes and the attempt is over. */
  lemma WritesAreChecked(p: Params, m: Machine)
    requires Writes(m.pc)
    ensures var m', o := Step(p, m, Write), m.pc.copy;
      if m.store.None? || m.store.value.version != o.version then m' == m.(pc := Idle)
      else
        && m'.store.Some? && m'.watches == m.watches && m'.entry == m.entry
        && m'.store.value.version
             == m.store.value.version + (if m'.store.value.status == m.store.value.status then 0 else 1)
        && (m.pc.WriteTimeout? ==>
              && m'.pc.Idle?
              && m'.store.value.status
                   == ServingStatus(o.status.phase, Timeout, o.status.reason, o.status.message, o.status.service))
        && (m.pc.WriteResult? ==>
              && m'.pc.ResultWritten?
              && m'.store.value.status == ServingStatus(
                   o.status.phase, m.pc.result.state, m.pc.result.reason, m.pc.result.message, o.status.service))
        && (m.pc.WriteLateTimeout? ==>
              && m'.pc.Idle?
              && m'.store.value.status
                   == ServingStatus(ServingPhase, Timeout, o.status.reason, o.status.message, o.status.service))
        && (m.pc.WriteReset? ==>
              && m'.pc == Launching(m'.store.value)
              && m'.store.value.status == ServingStatus(NoPhase, NoState, "", "", ""))
        && (m.pc.WriteStarting? ==>
              && m'.pc.Idle?
              && m'.store.value.status
                   == ServingStatus(ServingPhase, Starting, o.status.reason, o.status.message, o.status.service))
  {
  }

  /** What has been read decides: past the deadline a starting serving times out and any other is left alone; before it
      comes the timer, and then the result of the workload or its launch, for which the clock is looked at again. */
  lemma ReadingDecides(p: Params, m: Machine)
    ensures m.pc.Fetched? ==>
      var st, late := m.pc.copy.status.state, p.timeout.Some? && m.now > p.created + p.timeout.value;
      Step(p, m, Check) == m.(pc :=
        if !late then Arming(m.pc.copy) else if st == NoState || st == Starting then WriteTimeout(m.pc.copy) else Idle)
    ensures m.pc.Arming? ==>
      Step(p, m, Arm).store == m.store && Step(p, m, Arm).pc == (
        if m.pc.copy.status.phase == NoPhase || m.pc.copy.status.state == NoState then CheckingAgain(m.pc.copy)
        else Asking(m.pc.copy))
    ensures m.pc.CheckingAgain? ==>
      Step(p, m, Check) == m.(pc :=
        if p.timeout.Some? && m.now > p.created + p.timeout.value then WriteLateTimeout(m.pc.copy)
        else WriteReset(m.pc.copy))
    ensures m.pc.Asking? ==> Step(p, m, Answer(None)) == m.(pc := Idle)
    ensures Step(p, m, Fail) == m.(pc := Idle)
  {
  }

  /** A goroutine that has heard its tick tries once: it reads, and writes only over a starting serving and an unchanged
      version. */
  lemma GoroutineTriesOnce(p: Params, m: Machine, w: nat, applied: bool, ok: bool, read: Option<Object>)
    requires w in m.watches
    ensures m.watches[w].stage.Fired? && Readable(m, read) ==>
      var m' := Step(p, m, WatchGet(w, ok, read));
      && m'.store == m.store && w in m'.watches
      && m'.watches[w].stage == (
           if !ok || read.None? || (read.value.status.state != NoState && read.value.status.state != Starting)
           then Finishing else Holding(read.value))
    ensures m.watches[w].stage.Holding? ==>
      var m', o := Step(p, m, WatchWrite(w, applied)), m.watches[w].stage.copy;
      && w in m'.watches && m'.watches[w].stage == Finishing
      && (if applied && m.store.Some? && m.store.value.version == o.version
          then
            && m'.store.Some?
            && m'.store.value.status
                 == ServingStatus(o.status.phase, Timeout, o.status.reason, o.status.message, o.status.service)
          else m'.store == m.store)
  {
  }

  /** The runtime never delivers a tick at the very instant the timer is due, only later. */
  predicate TicksLate(m: Machine, a: Action) {
    a.Tick? && a.w in m.watches && m.watches[a.w].due.Some? ==> m.now != m.watches[a.w].due.value
  }

  predicate AllTicksLate(p: Params, acts: seq<Action>) {
    acts != [] ==>
      && AllTicksLate(p, acts[..|acts| - 1])
      && TicksLate(Run(p, acts[..|acts| - 1]), acts[|acts| - 1])
  }

  // ---------- What every run keeps ----------

  predicate Sound(p: Params, now: nat, st: ServingStatus) {
    && st.state in {NoState, Starting, Running, Failed, Timeout}
    && (st.state in {Starting, Running, Failed} ==> st.phase == ServingPhase)
    && (st.state == Timeout ==> p.Late(now))
  }

  ghost predicate Snapshot(m: Machine, copy: Object) {
    m.store.Some? ==>
      && copy.version <= m.store.value.version
      && (copy.version == m.store.value.version ==> copy.status == m.store.value.status)
  }

  predicate HasCopy(pc: Pc) {
    !pc.Idle? && !pc.ResultWritten? && !pc.NoServing?
  }

  /** What was stored once is sound, and a snapshot. */
  ghost predicate PastInv(p: Params, m: Machine) {
    && (m.store.Some? ==> m.store.value in m.past)
    && forall o :: o in m.past ==> Snapshot(m, o) && Sound(p, m.now, o.status)
  }

  ghost predicate PcInv(p: Params, m: Machine) {
    && (m.store.Some? ==> Sound(p, m.now, m.store.value.status))
    && (HasCopy(m.pc) ==> Snapshot(m, m.pc.copy) && Sound(p, m.now, m.pc.copy.status))
    && (HasCopy(m.pc) && !m.pc.Fetched? ==> m.pc.copy.status.state != Timeout)
    && (m.pc.WriteTimeout? ==> IsStarting(m.pc.copy.status.state) && p.Late(m.now))
    && (m.pc.Asking? || m.pc.WriteResult? ==> m.pc.copy.status.state in {Starting, Running, Failed})
    && (m.pc.WriteResult? ==> m.pc.result.state in {Running, Failed})
    && (m.pc.CheckingAgain? || m.pc.WriteLateTimeout? || m.pc.WriteReset? || m.pc.Launching? || m.pc.WriteStarting? ==>
          m.pc.copy.status.state == NoState)
    && (m.pc.WriteLateTimeout? ==> p.Late(m.now))
  }

  ghost predicate GoodWatch(p: Params, m: Machine, x: Watch) {
    && p.timeout.Some?
    && (x.due.Some? ==> x.due.value == p.created + p.timeout.value)
    && (x.ticked || x.stage.Fired? || x.stage.Holding? ==> p.Late(m.now))
    && (x.stage.Holding? ==>
          && Snapshot(m, x.stage.copy)
          && IsStarting(x.stage.copy.status.state)
          && Sound(p, m.now, x.stage.copy.status))
  }

  ghost predicate WatchInv(p: Params, m: Machine) {
    forall w :: w in m.watches ==> GoodWatch(p, m, m.watches[w])
  }

  /** How a serving's state may go on. */
  predicate MayBecome(before: State, after: State) {
    match before
    case NoState => after in {NoState, Starting, Timeout}
    case Starting => after in {Starting, Running, Failed, Timeout}
    case Running => after in {Running, Failed}
    case Failed => after in {Running, Failed}
    case _ => after == before
  }

  predicate MovesOn(before: Option<Object>, after: Option<Object>) {
    after.Some? ==>
      && before.Some?
      && before.value.version <= after.value.version
      && (before.value.version == after.value.version ==> before == after)
      && MayBecome(before.value.status.state, after.value.status.state)
  }

  ghost predicate Inv(p: Params, m: Machine) {
    PastInv(p, m) && PcInv(p, m) && WatchInv(p, m)
  }

  /** The only thing a step may add to the past is what it has stored, and that is sound. */
  predicate Remembers(p: Params, m: Machine, m': Machine) {
    && m'.past == m.past + (if m'.store.Some? then {m'.store.value} else {})
    && (m'.store.Some? ==> Sound(p, m'.now, m'.store.value.status))
  }

  lemma PastStays(p: Params, m: Machine, m': Machine)
    requires PastInv(p, m) && MovesOn(m.store, m'.store) && Remembers(p, m, m') && m.now <= m'.now
    ensures PastInv(p, m')
  {
    forall o | o in m'.past ensures Snapshot(m', o) && Sound(p, m'.now, o.status) {
      if o in m.past {
        assert Snapshot(m, o);
      }
    }
  }

  /** Only writes store anything. */
  lemma ReconcileStoresByWriting(p: Params, m: Machine, a: Action)
    requires !a.Write?
    ensures ReconcileStep(p, m, a).store == m.store && ReconcileStep(p, m, a).past == m.past
  {
  }

  lemma ReconcileMovesOn(p: Params, m: Machine, a: Action)
    requires PcInv(p, m) && (m.store.Some? ==> m.store.value in m.past)
    ensures MovesOn(m.store, ReconcileStep(p, m, a).store) && Remembers(p, m, ReconcileStep(p, m, a))
  {
    ReconcileOnlyStopsOrArms(p, m, a);
    if !a.Write? {
      ReconcileStoresByWriting(p, m, a);
    }
  }

  lemma ReadingKeepsPcInv(p: Params, m: Machine, a: Action)
    requires PastInv(p, m) && PcInv(p, m) && (m.pc.Idle? || m.pc.Fetched? || m.pc.Arming? || m.pc.Asking?)
    ensures PcInv(p, ReconcileStep(p, m, a))
  {
  }

  lemma WritingKeepsPcInv(p: Params, m: Machine, a: Action)
    requires PcInv(p, m) && !(m.pc.Idle? || m.pc.Fetched? || m.pc.Arming? || m.pc.Asking?)
    ensures PcInv(p, ReconcileStep(p, m, a))
  {
  }

  lemma ReconcileKeepsPcInv(p: Params, m: Machine, a: Action)
    requires PastInv(p, m) && PcInv(p, m)
    ensures PcInv(p, ReconcileStep(p, m, a))
  {
    if m.pc.Idle? || m.pc.Fetched? || m.pc.Arming? || m.pc.Asking? {
      ReadingKeepsPcInv(p, m, a);
    } else {
      WritingKeepsPcInv(p, m, a);
    }
  }

  lemma WatchesStay(p: Params, m: Machine, m': Machine)
    requires WatchInv(p, m) && MovesOn(m.store, m'.store) && m.now <= m'.now
    requires forall w :: w in m'.watches ==>
      || (w in m.watches && (m'.watches[w] == m.watches[w] || m'.watches[w] == m.watches[w].(due := None)))
      || (p.timeout.Some? && m'.watches[w] == Watch(Some(p.created + p.timeout.value), false, Waiting))
    ensures WatchInv(p, m')
  {
  }

  lemma ReconcileOnlyStopsOrArms(p: Params, m: Machine, a: Action)
    ensures var m' := ReconcileStep(p, m, a);
      && m'.now == m.now
      && forall w :: w in m'.watches ==>
        || (w in m.watches && (m'.watches[w] == m.watches[w] || m'.watches[w] == m.watches[w].(due := None)))
        || (p.timeout.Some? && m'.watches[w] == Watch(Some(p.created + p.timeout.value), false, Waiting))
  {
  }

  lemma ReconcileKeepsInv(p: Params, m: Machine, a: Action)
    requires Inv(p, m)
    ensures Inv(p, ReconcileStep(p, m, a)) && MovesOn(m.store, ReconcileStep(p, m, a).store)
  {
    var m' := ReconcileStep(p, m, a);
    ReconcileMovesOn(p, m, a);
    ReconcileOnlyStopsOrArms(p, m, a);
    PastStays(p, m, m');
    ReconcileKeepsPcInv(p, m, a);
    WatchesStay(p, m, m');
  }

  lemma WatchMovesOn(p: Params, m: Machine, a: Action, w: nat)
    requires Inv(p, m) && w in m.watches && (a.Tick? ==> a.w == w) && TicksLate(m, a)
    ensures var m' := WatchStep(m, a, w);
      MovesOn(m.store, m'.store) && Remembers(p, m, m') && m'.pc == m.pc && m'.now == m.now
  {
    assert GoodWatch(p, m, m.watches[w]);
  }

  lemma PcStays(p: Params, m: Machine, m': Machine)
    requires PcInv(p, m) && MovesOn(m.store, m'.store) && m'.pc == m.pc && m'.now == m.now
    requires m'.store.Some? ==> Sound(p, m'.now, m'.store.value.status)
    ensures PcInv(p, m')
  {
  }

  /** The goroutine's own watch. */
  lemma WatchStaysGood(p: Params, m: Machine, a: Action, w: nat)
    requires Inv(p, m) && w in m.watches && (a.Tick? ==> a.w == w) && TicksLate(m, a)
    ensures var m' := WatchStep(m, a, w);
      w in m'.watches && GoodWatch(p, m', m'.watches[w])
  {
    assert GoodWatch(p, m, m.watches[w]);
  }

  lemma WatchLeavesOthers(m: Machine, a: Action, w: nat)
    requires w in m.watches
    ensures var m' := WatchStep(m, a, w);
      forall v :: v in m'.watches && v != w ==>
        v in m.watches && (m'.watches[v] == m.watches[v] || m'.watches[v] == m.watches[v].(due := None))
  {
  }

  lemma WatchKeepsInv(p: Params, m: Machine, a: Action, w: nat)
    requires Inv(p, m) && w in m.watches && (a.Tick? ==> a.w == w) && TicksLate(m, a)
    ensures Inv(p, WatchStep(m, a, w)) && MovesOn(m.store, WatchStep(m, a, w).store)
  {
    var m' := WatchStep(m, a, w);
    WatchMovesOn(p, m, a, w);
    PastStays(p, m, m');
    PcStays(p, m, m');
    WatchStaysGood(p, m, a, w);
    WatchLeavesOthers(m, a, w);
    WatchesStay(p, m, m'.(watches := m'.watches - {w}));
    forall v | v in m'.watches ensures GoodWatch(p, m', m'.watches[v]) {
      if v != w {
        assert GoodWatch(p, m'.(watches := m'.watches - {w}), m'.watches[v]);
      }
    }
  }

  lemma EnvKeepsInv(p: Params, m: Machine, a: Action)
    requires Inv(p, m)
    ensures Inv(p, EnvStep(m, a)) && MovesOn(m.store, EnvStep(m, a).store)
  {
    var m' := EnvStep(m, a);
    assert MovesOn(m.store, m'.store);
    PastStays(p, m, m');
    WatchesStay(p, m, m');
  }

  lemma StepKeepsInv(p: Params, m: Machine, a: Action)
    requires Inv(p, m) && TicksLate(m, a)
    ensures Inv(p, Step(p, m, a)) && MovesOn(m.store, Step(p, m, a).store)
  {
    if ByWatch(a) {
      if a.w in m.watches {
        WatchKeepsInv(p, m, a, a.w);
      }
    } else if ByEnv(a) {
      EnvKeepsInv(p, m, a);
    } else {
      ReconcileKeepsInv(p, m, a);
    }
  }

  lemma {:induction false} RunKeepsInv(p: Params, acts: seq<Action>)
    requires AllTicksLate(p, acts)
    ensures Inv(p, Run(p, acts))
  {
    if acts != [] {
      RunKeepsInv(p, acts[..|acts| - 1]);
      StepKeepsInv(p, Run(p, acts[..|acts| - 1]), acts[|acts| - 1]);
    }
  }

  /** Main result: when ticks come late, in every interleaving and on copies however stale a timeout is final, a serving
      that ran, failed or timed out never counts as starting again, and only a serving that is late times out. */
  lemma StateOnlyMovesOn(p: Params, acts: seq<Action>, a: Action)
    requires AllTicksLate(p, acts + [a])
    ensures var before, after := Run(p, acts).store, Step(p, Run(p, acts), a).store;
      after.Some? ==>
        && before.Some?
        && MayBecome(before.value.status.state, after.value.status.state)
        && (before.value.status.state == Timeout ==> after.value.status.state == Timeout)
        && (!IsStarting(before.value.status.state) ==> !IsStarting(after.value.status.state))
        && (after.value.status.state == Timeout ==> p.Late(Step(p, Run(p, acts), a).now))
  {
    assert (acts + [a])[..|acts + [a]| - 1] == acts;
    RunKeepsInv(p, acts);
    StepKeepsInv(p, Run(p, acts), a);
  }

  // ---------- When the timer is due ----------

  predicate WellTimed(p: Params, x: Watch) {
    x.due.Some? ==> p.timeout.Some? && x.due.value == p.created + p.timeout.value
  }

  lemma StepKeepsTime(p: Params, m: Machine, a: Action)
    requires forall w :: w in m.watches ==> WellTimed(p, m.watches[w])
    ensures var m' := Step(p, m, a); forall w :: w in m'.watches ==> WellTimed(p, m'.watches[w])
  {
    if !ByWatch(a) && !ByEnv(a) {
      ReconcileOnlyStopsOrArms(p, m, a);
    } else if ByWatch(a) && a.w in m.watches {
      WatchLeavesOthers(m, a, a.w);
      assert WellTimed(p, m.watches[a.w]);
    }
  }

  /** Main result: in every run, whenever ticks come, an armed timer is due exactly when the time to start is over. */
  lemma {:induction false} TimersAreDueAtTheDeadline(p: Params, acts: seq<Action>)
    ensures forall w :: w in Run(p, acts).watches ==> WellTimed(p, Run(p, acts).watches[w])
    ensures forall w :: w in Run(p, acts).watches && Run(p, acts).watches[w].due.Some? ==>
      p.timeout.Some? && Run(p, acts).watches[w].due == Some(p.created + p.timeout.value)
  {
    if acts != [] {
      TimersAreDueAtTheDeadline(p, acts[..|acts| - 1]);
      StepKeepsTime(p, Run(p, acts[..|acts| - 1]), acts[|acts| - 1]);
    }
  }

  // ---------- A tick at the very deadline ----------

  /** What an attempt that nobody disturbs does up to its status write, after its Get returned `read`; calls that do
      not apply change nothing. */
  function Again(p: Params, m: Machine, read: Object, result: Option<ServingStatus>): Machine {
    var armed := Step(p, Step(p, Step(p, m, Fetch(Some(read))), Check), Arm);
    Step(p, Step(p, Step(p, armed, Answer(result)), Check), Write)
  }

  /** Exactly when an attempt replaces a recorded timeout: it has read the current object, finds the deadline not yet
      exceeded, and either the serving has no phase, in which case its status is reset, or its workload reports a
      result. Since no timeout is recorded before the deadline, that is the instant of the deadline. */
  lemma WhenTimeoutIsReplaced(p: Params, m: Machine, read: Object, result: Option<ServingStatus>)
    requires m.pc.Idle? && m.store.Some? && m.store.value.status.state == Timeout
    requires Readable(m, Some(read)) && Snapshot(m, read)
    requires result.Some? ==> result.value.state in {Running, Failed}
    ensures Again(p, m, read, result).store.Some?
    ensures var before, after := m.store.value.status, Again(p, m, read, result).store.value.status;
      && (after.state != Timeout <==>
            read == m.store.value && !p.Late(m.now) && (before.phase == NoPhase || result.Some?))
      && (after == before || after.state != Timeout)
      && (after.state != Timeout && before.phase == NoPhase ==> after == EMPTY_SERVING_STATUS)
      && (after.state != Timeout && before.phase != NoPhase ==> after.state == result.value.state)
  {
    if read != m.store.value {
      StaleChangesNothing(p, m, read, result);
    } else {
      WhenCurrentTimeoutIsReplaced(p, m, result);
    }
  }

  /** The worker has nothing but this copy in hand. */
  predicate HoldsOnly(m: Machine, o: Object) {
    HasCopy(m.pc) ==> m.pc.copy == o
  }

  lemma GoesOnHolding(p: Params, m: Machine, a: Action, o: Object)
    requires HoldsOnly(m, o) && (a.Check? || a.Arm? || a.Answer?)
    ensures HoldsOnly(Step(p, m, a), o) && Step(p, m, a).store == m.store
  {
  }

  lemma StaleWriteIsRefused(p: Params, m: Machine, o: Object)
    requires HoldsOnly(m, o) && m.store.Some? && m.store.value.version != o.version
    ensures Step(p, m, Write).store == m.store
  {
  }

  lemma StaleChangesNothing(p: Params, m: Machine, read: Object, result: Option<ServingStatus>)
    requires m.pc.Idle? && m.store.Some? && read != m.store.value
    requires Readable(m, Some(read)) && Snapshot(m, read)
    ensures Again(p, m, read, result).store == m.store
  {
    var m1 := Step(p, m, Fetch(Some(read)));
    GoesOnHolding(p, m1, Check, read);
    var m2 := Step(p, m1, Check);
    GoesOnHolding(p, m2, Arm, read);
    var m3 := Step(p, m2, Arm);
    GoesOnHolding(p, m3, Answer(result), read);
    var m4 := Step(p, m3, Answer(result));
    GoesOnHolding(p, m4, Check, read);
    StaleWriteIsRefused(p, Step(p, m4, Check), read);
  }

  lemma WhenCurrentTimeoutIsReplaced(p: Params, m: Machine, result: Option<ServingStatus>)
    requires m.pc.Idle? && m.store.Some? && m.store.value.status.state == Timeout && m.store.value in m.past
    requires result.Some? ==> result.value.state in {Running, Failed}
    ensures var before, m' := m.store.value.status, Again(p, m, m.store.value, result);
      && m'.store.Some?
      && m'.store.value.status.state
           == (if p.Late(m.now) then Timeout
               else if before.phase == NoPhase then NoState
               else if result.None? then Timeout else result.value.state)
      && (m'.store.value.status.state == Timeout ==> m'.store == m.store)
      && (m'.store.value.status.state == NoState ==> m'.store.value.status == EMPTY_SERVING_STATUS)
  {
    var copy := m.store.value;
    var checked := Step(p, Step(p, m, Fetch(m.store)), Check);
    if p.Late(m.now) {
      assert checked == m;
      StaysAtRest(p, m, result);
    } else {
      assert checked == m.(pc := Arming(copy));
      ArmsNothing(p, m);
      if copy.status.phase == NoPhase {
        ResetsTimeout(p, m.(pc := CheckingAgain(copy)), result);
      } else {
        ReplacesTimeout(p, m.(pc := Asking(copy)), result);
      }
    }
  }

  lemma StaysAtRest(p: Params, m: Machine, result: Option<ServingStatus>)
    requires m.pc.Idle?
    ensures Step(p, Step(p, Step(p, Step(p, m, Arm), Answer(result)), Check), Write) == m
  {
  }

  /** A serving that is not starting gets no timer. */
  lemma ArmsNothing(p: Params, m: Machine)
    requires m.store.Some? && m.store.value.status.state == Timeout
    ensures var copy := m.store.value;
      Step(p, m.(pc := Arming(copy)), Arm)
        == m.(pc := if copy.status.phase == NoPhase then CheckingAgain(copy) else Asking(copy))
  {
  }

  lemma ResetsTimeout(p: Params, m: Machine, result: Option<ServingStatus>)
    requires m.store.Some? && m.pc == CheckingAgain(m.store.value) && !p.Late(m.now)
    ensures var r := Step(p, Step(p, Step(p, m, Answer(result)), Check), Write);
      r.store.Some? && r.store.value.status == EMPTY_SERVING_STATUS
  {
    assert Step(p, Step(p, m, Answer(result)), Check) == m.(pc := WriteReset(m.store.value));
  }

  lemma ReplacesTimeout(p: Params, m: Machine, result: Option<ServingStatus>)
    requires m.store.Some? && m.pc == Asking(m.store.value) && m.store.value.status.state == Timeout
    requires result.Some? ==> result.value.state in {Running, Failed}
    ensures var r := Step(p, Step(p, Step(p, m, Answer(result)), Check), Write);
      && r.store.Some? && r.store.value.status.state == (if result.None? then Timeout else result.value.state)
      && (result.None? ==> r.store == m.store)
  {
    if result.Some? {
      assert Step(p, Step(p, m, Answer(result)), Check) == m.(pc := WriteResult(m.store.value, result.value));
    } else {
      assert Step(p, Step(p, m, Answer(result)), Check) == m.(pc := Idle);
    }
  }

  lemma RunGoesOn(p: Params, acts: seq<Action>, m: Machine, a: Action, next: Machine) returns (more: seq<Action>)
    requires Run(p, acts) == m && Step(p, m, a) == next
    ensures more == acts + [a] && Run(p, more) == next
  {
    more := acts + [a];
    assert more[..|acts|] == acts;
  }

  const NEW := Object(EMPTY_SERVING_STATUS, 0)
  const STARTED := EMPTY_SERVING_STATUS.(phase := ServingPhase, state := Starting)

  /** A new serving with its timer armed, seen at this moment with this status, after these earlier ones. */
  function Watched(earlier: set<Object>, status: ServingStatus, version: nat, now: nat, watch: Watch): Machine {
    var o := Object(status, version);
    Machine(Some(o), earlier + {o}, now, Idle, map[0 := watch], Some(0), 1)
  }

  function Deadline(p: Params): nat
    requires p.timeout.Some?
  {
    p.created + p.timeout.value
  }

  function Due(p: Params): Watch
    requires p.timeout.Some?
  {
    Watch(Some(Deadline(p)), false, Waiting)
  }

  lemma ArmsFirst(p: Params) returns (acts: seq<Action>)
    requires p.timeout.Some?
    ensures var m := Watched({}, EMPTY_SERVING_STATUS, 0, p.created, Due(p));
      Run(p, acts) == m.(pc := CheckingAgain(m.store.value))
  {
    var init := Init(p);
    var copy := init.store.value;
    var m := Watched({}, EMPTY_SERVING_STATUS, 0, p.created, Due(p));
    acts := Looks(p, [], init);
    ArmsNow(p);
    acts := RunGoesOn(p, acts, init.(pc := Arming(copy)), Arm, m.(pc := CheckingAgain(copy)));
  }

  lemma Looks(p: Params, before: seq<Action>, m: Machine) returns (acts: seq<Action>)
    requires Run(p, before) == m && m.pc.Idle? && m.store.Some? && m.store.value in m.past && !p.Late(m.now)
    ensures Run(p, acts) == m.(pc := Arming(m.store.value))
  {
    var copy := m.store.value;
    acts := RunGoesOn(p, before, m, Fetch(m.store), m.(pc := Fetched(copy)));
    acts := RunGoesOn(p, acts, m.(pc := Fetched(copy)), Check, m.(pc := Arming(copy)));
  }

  lemma ArmsNow(p: Params)
    requires p.timeout.Some?
    ensures var init, m := Init(p), Watched({}, EMPTY_SERVING_STATUS, 0, p.created, Due(p));
      Step(p, init.(pc := Arming(init.store.value)), Arm) == m.(pc := CheckingAgain(m.store.value))
  {
    assert Init(p).watches[0 := Due(p)] == map[0 := Due(p)];
  }

  /** From rest with the timer armed, time passes until the very deadline, and the goroutine times the serving out. */
  lemma TimesOut(p: Params, before: seq<Action>, earlier: set<Object>, status: ServingStatus, version: nat)
      returns (acts: seq<Action>)
    requires p.timeout.Some?
    requires Run(p, before) == Watched(earlier, status, version, p.created, Due(p)) && IsStarting(status.state)
    ensures Run(p, acts)
      == Watched(earlier + {Object(status, version)}, status.(state := Timeout), version + 1, Deadline(p),
                 Watch(None, false, Finishing))
  {
    var m := Watched(earlier, status, version, Deadline(p), Due(p));
    acts := RunGoesOn(p, before, Watched(earlier, status, version, p.created, Due(p)), Advance(p.timeout.value), m);
    var ticked := Watched(earlier, status, version, Deadline(p), Watch(None, true, Waiting));
    assert m.watches[0 := ticked.watches[0]] == ticked.watches;
    acts := RunGoesOn(p, acts, m, Tick(0), ticked);
    acts := HearsTick(p, acts, earlier, status, version);
  }

  lemma HearsTick(p: Params, before: seq<Action>, earlier: set<Object>, status: ServingStatus, version: nat)
      returns (acts: seq<Action>)
    requires p.timeout.Some?
    requires Run(p, before) == Watched(earlier, status, version, Deadline(p), Watch(None, true, Waiting))
    requires IsStarting(status.state)
    ensures Run(p, acts)
      == Watched(earlier + {Object(status, version)}, status.(state := Timeout), version + 1, Deadline(p),
                 Watch(None, false, Finishing))
  {
    var ticked := Watched(earlier, status, version, Deadline(p), Watch(None, true, Waiting));
    var fired := Watched(earlier, status, version, Deadline(p), Watch(None, false, Fired));
    assert ticked.watches[0 := fired.watches[0]] == fired.watches;
    acts := RunGoesOn(p, before, ticked, Wake(0), fired);
    var holding := Watched(earlier, status, version, Deadline(p), Watch(None, false, Holding(Object(status, version))));
    assert fired.watches[0 := holding.watches[0]] == holding.watches;
    acts := RunGoesOn(p, acts, fired, WatchGet(0, true, fired.store), holding);
    var late := Watched(earlier + {Object(status, version)}, status.(state := Timeout), version + 1, Deadline(p),
                        Watch(None, false, Finishing));
    assert holding.watches[0 := late.watches[0]] == late.watches;
    acts := RunGoesOn(p, acts, holding, WatchWrite(0, true), late);
  }

  lemma StartsUp(p: Params) returns (acts: seq<Action>)
    requires p.timeout.Some?
    ensures Run(p, acts) == Watched({NEW}, STARTED, 1, p.created, Due(p))
  {
    acts := ArmsFirst(p);
    var m, m' := Watched({}, EMPTY_SERVING_STATUS, 0, p.created, Due(p)), Watched({NEW}, STARTED, 1, p.created, Due(p));
    var copy := m.store.value;
    acts := RunGoesOn(p, acts, m.(pc := CheckingAgain(copy)), Check, m.(pc := WriteReset(copy)));
    acts := RunGoesOn(p, acts, m.(pc := WriteReset(copy)), Write, m.(pc := Launching(copy)));
    acts := RunGoesOn(p, acts, m.(pc := Launching(copy)), Begin, m.(pc := WriteStarting(copy)));
    acts := RunGoesOn(p, acts, m.(pc := WriteStarting(copy)), Write, m');
  }

  /** At rest with a recorded timeout, under this phase, and the deadline not exceeded. */
  predicate TimedOutInTime(p: Params, m: Machine, phase: Phase) {
    && m.pc.Idle? && !p.Late(m.now) && m.store.Some? && m.store.value in m.past
    && m.store.value.status.state == Timeout && m.store.value.status.phase == phase
  }

  lemma StartsAndTimesOut(p: Params) returns (acts: seq<Action>)
    requires p.timeout.Some?
    ensures TimedOutInTime(p, Run(p, acts), ServingPhase)
  {
    acts := StartsUp(p);
    acts := TimesOut(p, acts, {NEW}, STARTED, 1);
  }

  lemma FailsAndTimesOut(p: Params) returns (acts: seq<Action>)
    requires p.timeout.Some?
    ensures TimedOutInTime(p, Run(p, acts), NoPhase)
  {
    acts := FailsAfterArming(p);
    acts := TimesOut(p, acts, {}, EMPTY_SERVING_STATUS, 0);
  }

  /** For every serving with a timeout: if the tick arrives at the instant of the deadline, an attempt at that instant
      finds the serving not late, and one that was starting is marked with its result instead. */
  lemma TimeoutAtTheDeadlineIsNotFinal(p: Params, result: ServingStatus) returns (acts: seq<Action>)
    requires p.timeout.Some? && result.state in {Running, Failed}
    ensures TimedOutInTime(p, Run(p, acts), ServingPhase)
    ensures var m := Run(p, acts);
      && Again(p, m, m.store.value, Some(result)).store.Some?
      && Again(p, m, m.store.value, Some(result)).store.value.status.state == result.state
  {
    acts := StartsAndTimesOut(p);
    WhenTimeoutIsReplaced(p, Run(p, acts), Run(p, acts).store.value, Some(result));
  }

  /** One whose first attempt failed right after arming the timer goes back to having no state at all. */
  lemma TimeoutAtTheDeadlineIsForgotten(p: Params) returns (acts: seq<Action>)
    requires p.timeout.Some?
    ensures TimedOutInTime(p, Run(p, acts), NoPhase)
    ensures var m := Run(p, acts);
      && Again(p, m, m.store.value, None).store.Some?
      && Again(p, m, m.store.value, None).store.value.status == EMPTY_SERVING_STATUS
  {
    acts := FailsAndTimesOut(p);
    WhenTimeoutIsReplaced(p, Run(p, acts), Run(p, acts).store.value, None);
  }

  lemma FailsAfterArming(p: Params) returns (acts: seq<Action>)
    requires p.timeout.Some?
    ensures Run(p, acts) == Watched({}, EMPTY_SERVING_STATUS, 0, p.created, Due(p))
  {
    acts := ArmsFirst(p);
    var m := Watched({}, EMPTY_SERVING_STATUS, 0, p.created, Due(p));
    acts := RunGoesOn(p, acts, m.(pc := CheckingAgain(m.store.value)), Fail, m);
  }
}

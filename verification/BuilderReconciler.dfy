/** One attempt of the Builder controller, and one round of its timer goroutine, as they are written: methods that
    update the stored builder and the table of timers. Each is a run of the step machine. */
module BuilderReconciler {
  import opened Api
  import opened BuilderController

  /** A call of the worker itself that does not fail. */
  predicate OfWorker(a: Action) {
    a.Fetch? || a.Check? || a.Arm? || a.Answer? || a.Write? || a.Begin? || a.StopTimer?
  }

  /** A step of the goroutine that serves timer `w`. */
  predicate OfGoroutine(a: Action, w: nat) {
    || a == Wake(w) || a == Retry(w) || a == WatchStop(w)
    || (a.WatchGet? && a.w == w) || (a.WatchWrite? && a.w == w)
  }

  predicate By(who: Option<nat>, a: Action) {
    match who
    case None => OfWorker(a)
    case Some(w) => OfGoroutine(a, w)
  }

  function Go(p: Params, m: Machine, acts: seq<Action>): Machine
    decreases |acts|
  {
    if acts == [] then m else Go(p, Step(p, m, acts[0]), acts[1..])
  }

  /** By steps of one actor alone - the worker, or the goroutine of a timer - the machine comes from m to m'. */
  ghost predicate Reaches(who: Option<nat>, p: Params, m: Machine, m': Machine) {
    exists acts :: (forall a :: a in acts ==> By(who, a)) && Go(p, m, acts) == m'
  }

  lemma ReachesItself(who: Option<nat>, p: Params, m: Machine)
    ensures Reaches(who, p, m, m)
  {
    assert Go(p, m, []) == m;
  }

  lemma ReachesNext(who: Option<nat>, p: Params, m: Machine, a: Action, next: Machine, m': Machine)
    requires By(who, a) && Step(p, m, a) == next && Reaches(who, p, next, m')
    ensures Reaches(who, p, m, m')
  {
    var acts :| (forall b :: b in acts ==> By(who, b)) && Go(p, next, acts) == m';
    assert ([a] + acts)[1..] == acts;
    assert Go(p, m, [a] + acts) == m';
  }

  /** What is reached from a run is a run; what is proved of all runs holds of it. */
  lemma {:induction false} GoIsARun(p: Params, acts: seq<Action>, more: seq<Action>)
    ensures Go(p, Run(p, acts), more) == Run(p, acts + more)
    decreases |more|
  {
    if more == [] {
      assert acts + more == acts;
    } else {
      assert (acts + [more[0]])[..|acts|] == acts;
      GoIsARun(p, acts + [more[0]], more[1..]);
      assert acts + [more[0]] + more[1..] == acts + more;
    }
  }

  const BUILDING := EMPTY_BUILDER_STATUS.(phase := BuildPhase, state := Building)

  /** The results Shipwright can lead to. */
  predicate MayReport(result: Option<BuilderStatus>) {
    result.Some? ==> result.value.state in {Succeeded, Failed, Timeout, Canceled}
  }

  // ---------- The build behind the builder ----------

  /** A BuildRun of Shipwright: has it been told to stop? */
  datatype BuildRun = BuildRun(stopped: bool)

  /** Whether the builder's specification asks for cancellation, the BuildRun recorded in Status.ResourceRef, and the
      builder's BuildRuns that there are. */
  datatype Build = Build(cancelled: bool, recorded: Option<nat>, runs: map<nat, BuildRun>, next: nat)

  /** The recorded run is told to stop, and no other. */
  function Stopped(b: Build): (r: Build)
    ensures r.runs.Keys == b.runs.Keys && r.(runs := b.runs) == b
    ensures forall n :: n in b.runs ==> (r.runs[n].stopped <==> b.runs[n].stopped || b.recorded == Some(n))
  {
    if b.recorded.Some? && b.recorded.value in b.runs
    then b.(runs := b.runs[b.recorded.value := BuildRun(true)])
    else b
  }

  /** Earlier runs are cleaned up, and a new one is created and recorded. */
  function Started(b: Build): Build {
    b.(recorded := Some(b.next), runs := map[b.next := BuildRun(false)], next := b.next + 1)
  }

  /** Does an attempt start a build? It does not ask whether the builder is marked as cancelled. */
  predicate Starts(p: Params, m: Machine) {
    && m.store.Some? && !IsCompleted(m.store.value.status.state) && !p.Late(m.now)
    && (m.store.value.status.phase == NoPhase || m.store.value.status.state == NoState)
  }

  /** What an attempt makes of the build. */
  function BuildAfter(p: Params, m: Machine, b: Build): Build {
    var told := if b.cancelled && m.store.Some? then Stopped(b) else b;
    if Starts(p, m) then Started(told) else told
  }

  /** A run goes on unless it is told to stop. */
  predicate GoesOn(b: Build, n: nat) {
    n in b.runs && !b.runs[n].stopped
  }

  /** A run is on record only while the builder has a phase and a state; there is no other run. */
  predicate Tracked(m: Machine, b: Build) {
    && (b.recorded.Some? && m.store.Some? ==>
          m.store.value.status.phase != NoPhase && m.store.value.status.state != NoState)
    && (forall n :: n in b.runs ==> b.recorded == Some(n))
  }

  /** Main result on cancelling: exactly when a build of a cancelled builder goes on after an attempt - the attempt has
      just started it, or it was going on without being on record. */
  lemma WhenCancelledBuildGoesOn(p: Params, m: Machine, b: Build)
    requires m.store.Some? && b.cancelled
    ensures (exists n: nat :: GoesOn(BuildAfter(p, m, b), n)) <==>
      || (&& !IsCompleted(m.store.value.status.state) && !p.Late(m.now)
          && (m.store.value.status.phase == NoPhase || m.store.value.status.state == NoState))
      || (exists n: nat :: GoesOn(b, n) && b.recorded != Some(n))
  {
    var after := BuildAfter(p, m, b);
    if Starts(p, m) {
      assert GoesOn(after, b.next);
    } else {
      assert forall n: nat :: GoesOn(after, n) <==> GoesOn(b, n) && b.recorded != Some(n);
    }
  }

  /** For every builder: marked as cancelled before its first attempt, it is built all the same. */
  lemma CancelledTooEarlyIsBuilt(p: Params, result: Option<BuilderStatus>)
    ensures var m, b := Init(p), Build(true, None, map[], 0);
      && Tracked(m, b) && GoesOn(BuildAfter(p, m, b), 0)
      && Whole(p, m, result).store.Some? && Whole(p, m, result).store.value.status == BUILDING
  {
    var m := Init(p);
    assert !p.Late(m.now);
    assert Whole(p, m, result).store.value.status == BUILDING;
  }

  /** No second attempt starts a build again, whatever has become of the builder's status in the meantime, so the next
      one that gets through to Shipwright stops it. */
  lemma NextAttemptStopsIt(p: Params, m: Machine, b: Build, result: Option<BuilderStatus>, later: Machine)
    requires m.store.Some? && b.cancelled && Tracked(m, b) && MayReport(result) && Sound(m.store.value.status)
    requires later.store.Some? && MovesOn(Whole(p, m, result).store, later.store) && Sound(later.store.value.status)
    ensures forall n: nat :: !GoesOn(BuildAfter(p, later, BuildAfter(p, m, b)), n)
  {
    WholeIsBegun(p, m, result);
    AttemptKeepsTracked(p, m, b, result);
    assert !Starts(p, later);
  }

  /** After an attempt the build has begun, or is over. */
  lemma WholeIsBegun(p: Params, m: Machine, result: Option<BuilderStatus>)
    requires m.store.Some? && MayReport(result) && Sound(m.store.value.status)
    ensures Whole(p, m, result).store.Some?
    ensures var st := Whole(p, m, result).store.value.status;
      IsCompleted(st.state) || (st.phase != NoPhase && st.state == Building)
  {
  }

  /** Is there a timer to be started? */
  predicate Arms(p: Params, m: Machine) {
    p.timeout.Some? && m.now <= p.created + p.timeout.value && m.entry.None?
  }

  /** The timers once that is done. */
  predicate TimersArmed(p: Params, m: Machine, watches: map<nat, Watch>, entry: Option<nat>) {
    if Arms(p, m)
    then entry == Some(m.nextWatch)
      && watches == m.watches[m.nextWatch := Watch(Some(p.created + p.timeout.value), false, Waiting, 0)]
    else entry == m.entry && watches == m.watches
  }

  /** An attempt leaves a finished builder alone, and times an unfinished one out once the deadline is exceeded. */
  lemma WhatALateAttemptBringsAbout(p: Params, m: Machine, result: Option<BuilderStatus>)
    requires m.store.Some?
    ensures var st, m' := m.store.value.status, Whole(p, m, result);
      && m'.store.Some? && m'.now == m.now
      && (st.state !in {NoState, Building} ==> m' == m)
      && (st.state in {NoState, Building} && p.timeout.Some? && m.now > p.created + p.timeout.value ==>
            && m'.store.value.status == BuilderStatus(st.phase, Timeout, "Timeout", "Timeout", st.output)
            && m'.watches == m.watches && m'.entry == m.entry)
  {
  }

  /** Main result on what an attempt before the deadline brings about: the reported result, and the timer stopped; or a
      build under way, and the timer armed. */
  lemma WhatAnAttemptBringsAbout(p: Params, m: Machine, result: Option<BuilderStatus>)
    requires m.store.Some? && m.store.value.status.state in {NoState, Building}
    requires p.timeout.None? || m.now <= p.created + p.timeout.value
    ensures var st, m' := m.store.value.status, Whole(p, m, result);
      && m'.store.Some? && m'.now == m.now
      && (st.phase == NoPhase || st.state == NoState ==>
            && m'.store.value.status == BuilderStatus(BuildPhase, Building, "", "", None)
            && TimersArmed(p, m, m'.watches, m'.entry))
      && (st.phase != NoPhase && st.state != NoState && result.None? ==>
            m'.store == m.store && TimersArmed(p, m, m'.watches, m'.entry))
      && (st.phase != NoPhase && st.state != NoState && result.Some? ==>
            && m'.store.value.status == BuilderStatus(
                 st.phase, result.value.state, result.value.reason, result.value.message, result.value.output)
            && (m.entry.Some? && m.entry.value in m.watches ==>
                  m'.entry.None? && m'.watches[m.entry.value].due.None?)
            && (m.entry.None? ==>
                  m'.entry.None? && forall w :: w in m'.watches && w !in m.watches ==> m'.watches[w].due.None?))
  {
  }

  /** For a builder that is gone the timer on record is stopped, and that is all. */
  lemma WhatDeletionBringsAbout(p: Params, m: Machine, result: Option<BuilderStatus>)
    requires m.store.None?
    ensures var m' := Whole(p, m, result);
      && m'.store.None? && m'.watches.Keys == m.watches.Keys
      && (m.entry.Some? && m.entry.value in m.watches ==> m'.entry.None? && m'.watches[m.entry.value].due.None?)
      && (forall w :: w in m.watches && m.entry != Some(w) ==> m'.watches[w] == m.watches[w])
  {
  }

  /** Main result on what a tick brings about: unless the builder is gone or finished it times out; if a call fails on
      the way the timer is set anew, and otherwise the timer on record is stopped and the goroutine ends. */
  lemma WhatATickBringsAbout(p: Params, m: Machine, w: nat, got: bool, applied: bool, ok: bool)
    requires w in m.watches
    ensures var m' := Round(p, m, w, got, applied, ok);
      var open := m.store.Some? && m.store.value.status.state in {NoState, Building};
      && w in m'.watches && m'.now == m.now
      && (got && open && applied ==>
            && m'.store.Some?
            && var st := m.store.value.status;
              m'.store.value.status == BuilderStatus(st.phase, Timeout, "Timeout", "Timeout", st.output))
      && (!(got && open && applied) ==> m'.store == m.store)
      && (!got || (open && !(applied && ok)) ==>
            && m'.entry == m.entry
            && m'.watches == m.watches[w := Watch(
                 Some(m.now + (if m.watches[w].retries <= 8 then Pow2(m.watches[w].retries) else 300) * 1_000_000_000),
                 false, Waiting, m.watches[w].retries + 1)])
      && (got && (open ==> applied && ok) ==>
            && m'.watches[w].stage == Finished
            && (m.entry.Some? && m.entry.value in m.watches ==>
                  m'.entry.None? && m'.watches[m.entry.value].due.None?))
  {
  }

  lemma AttemptKeepsTracked(p: Params, m: Machine, b: Build, result: Option<BuilderStatus>)
    requires Tracked(m, b) && MayReport(result)
    ensures Tracked(Whole(p, m, result), BuildAfter(p, m, b))
  {
  }

  lemma RoundKeepsTracked(p: Params, m: Machine, b: Build, w: nat, got: bool, applied: bool, ok: bool)
    requires w in m.watches && Tracked(m, b)
    ensures Tracked(Round(p, m, w, got, applied, ok), b)
  {
  }

  class Reconciler {
    const p: Params
    var store: Option<Object>
    ghost var past: set<Object>
    var now: nat
    /** Spec.State, Status.ResourceRef and the BuildRuns at Shipwright. */
    var cancelled: bool
    var recorded: Option<nat>
    var runs: map<nat, BuildRun>
    var nextRun: nat
    /** All timers with their goroutines, and the one on record in the table of timers. */
    var watches: map<nat, Watch>
    var entry: Option<nat>
    var nextWatch: nat
    ghost var watched: bool

    constructor (p: Params)
      ensures this.p == p && State() == Init(p) && Behind() == Build(false, None, map[], 0)
    {
      this.p := p;
      store, now := Some(Object(EMPTY_BUILDER_STATUS, 0)), p.created;
      past := {Object(EMPTY_BUILDER_STATUS, 0)};
      cancelled, recorded, runs, nextRun := false, None, map[], 0;
      watches, entry, nextWatch, watched := map[], None, 0, false;
    }

    ghost function State(): Machine
      reads this
    {
      Machine(store, past, now, Idle, watches, entry, nextWatch, watched)
    }

    ghost function Behind(): Build
      reads this
    {
      Build(cancelled, recorded, runs, nextRun)
    }

    /** Writes the status over the stored one and returns the object as stored. */
    method UpdateStatus(st: BuilderStatus) returns (stored: Object)
      requires store.Some?
      modifies this`store, this`past
      ensures State() == Put(old(State()), st) && store == Some(stored)
    {
      stored := Object(st, if st == store.value.status then store.value.version else store.value.version + 1);
      store := Some(stored);
      past := past + {stored};
    }

    method StartTimer()
      requires store.Some?
      modifies this`watches, this`entry, this`nextWatch, this`watched
      ensures State() == Step(p, old(State()).(pc := Arming(store.value)), Arm).(pc := Idle)
      ensures p.timeout.Some? && now <= p.created + p.timeout.value && old(entry).None? ==>
        && entry == Some(old(nextWatch)) && nextWatch == old(nextWatch) + 1
        && watches == old(watches)[old(nextWatch) := Watch(Some(p.created + p.timeout.value), false, Waiting, 0)]
      ensures p.timeout.None? || now > p.created + p.timeout.value || old(entry).Some? ==>
        watches == old(watches) && entry == old(entry) && nextWatch == old(nextWatch)
    {
      if p.timeout.None? || p.Late(now) {
        return;
      }
      watched := true;
      if entry.Some? {
        return;
      }
      watches := watches[nextWatch := Watch(Some(p.created + p.timeout.value), false, Waiting, 0)];
      entry, nextWatch := Some(nextWatch), nextWatch + 1;
    }

    method StopTimer()
      modifies this`watches, this`entry
      ensures State() == Stop(old(State()))
      ensures old(entry).Some? && old(entry).value in old(watches) ==>
        && entry.None? && watches.Keys == old(watches).Keys && watches[old(entry).value].due.None?
        && forall w :: w in watches && w != old(entry).value ==> watches[w] == old(watches)[w]
    {
      if entry.Some? && entry.value in watches {
        watches, entry := watches[entry.value := watches[entry.value].(due := None)], None;
      }
    }

    /** Takes over the result of the build, if there is one. */
    method GetBuilderResult(result: Option<BuilderStatus>)
      requires store.Some?
      modifies this`store, this`past, this`watches, this`entry
      ensures State() == if result.None? then old(State()) else 
        Stop(Put(old(State()), Taken(old(store).value.status, result.value)))
    {
      if result.None? {
        return;
      }
      var stored := UpdateStatus(Taken(store.value.status, result.value));
      StopTimer();
    }

    /** Has Shipwright stop the recorded run; that it is gone is no error. Without a record there is nothing to ask
        for, and no call is made. `got` and `updated` tell the fate of the two calls. */
    method Cancel(got: bool, updated: bool) returns (ok: bool)
      modifies this`runs
      ensures ok <==> (recorded.Some? ==> got && updated)
      ensures Behind() == if ok then Stopped(old(Behind())) else old(Behind())
    {
      if recorded.None? {
        return true;
      }
      if !got || !updated {
        return false;
      }
      if recorded.value in runs {
        runs := runs[recorded.value := BuildRun(true)];
      }
      ok := true;
    }

    /** Creates a run, after whatever there was has been cleaned up. */
    method Start()
      modifies this`recorded, this`runs, this`nextRun
      ensures Behind() == Started(old(Behind()))
    {
      var started: map<nat, BuildRun> := map[nextRun := BuildRun(false)];
      recorded, runs, nextRun := Some(nextRun), started, nextRun + 1;
    }

    /** Resets the status, which forgets any record, starts a run, and records it together with the phase. */
    method StartBuild()
      requires store.Some?
      modifies this`store, this`past, this`recorded, this`runs, this`nextRun
      ensures State() == Put(Put(old(State()), EMPTY_BUILDER_STATUS), BUILDING)
      ensures Behind() == Started(old(Behind()))
    {
      var builder := UpdateStatus(EMPTY_BUILDER_STATUS);
      recorded := None;
      Start();
      builder := UpdateStatus(builder.status.(phase := BuildPhase, state := Building));
    }

    /** A whole attempt; `result` is what Shipwright reports if it is asked, `got` and `updated` tell the fate of the
        calls that cancel. An attempt that cannot pass a cancellation on does nothing else. */
    method Reconcile(result: Option<BuilderStatus>, got: bool, updated: bool) returns (ok: bool)
      requires MayReport(result)
      modifies this
      ensures ok <==> (old(store).Some? && old(cancelled) && old(recorded).Some? ==> got && updated)
      ensures State() == if ok then Whole(p, old(State()), result) else old(State())
      ensures Behind() == if ok then BuildAfter(p, old(State()), old(Behind())) else old(Behind())
    {
      ok := true;
      if store.None? {
        StopTimer();
        return;
      }
      var builder := store.value;
      if cancelled {
        ok := Cancel(got, updated);
        if !ok {
          return;
        }
      }
      if IsCompleted(builder.status.state) {
        return;
      }
      if p.Late(now) {
        builder := UpdateStatus(TimedOut(builder.status));
        return;
      }
      Proceed(result);
    }

    /** What an attempt does for a builder that is neither finished nor late. */
    method Proceed(result: Option<BuilderStatus>)
      requires MayReport(result) && store.Some?
      requires !IsCompleted(store.value.status.state) && !p.Late(now)
      modifies this
      ensures State() == Whole(p, old(State()), result)
      ensures Behind() == if Starts(p, old(State())) then Started(old(Behind())) else old(Behind())
    {
      StartTimer();
      if store.value.status.phase != NoPhase && store.value.status.state != NoState {
        GetBuilderResult(result);
        return;
      }
      StartBuild();
    }

    /** What the goroutine of timer `w` does with its tick. `got`, `applied` and `ok` tell the fate of its calls. */
    method WaitBuildTimeout(w: nat, got: bool, applied: bool, ok: bool)
      requires w in watches && watches[w] == watches[w].(stage := Waiting, ticked := true)
      modifies this`store, this`past, this`watches, this`entry
      ensures State() == Round(p, old(State()), w, got, applied, ok)
    {
      var retries := watches[w].retries;
      var failed := BuildTimeout(got, applied, ok);
      if failed {
        var delay := if retries <= 8 then Pow2(retries) else 300;
        watches := watches[w := Watch(Some(now + delay * SECOND), false, Waiting, retries + 1)];
        return;
      }
      watches := watches[w := watches[w].(ticked := false, stage := Finishing)];
      var mine := entry == Some(w);
      StopTimer();
      watches := watches[w := (if mine then watches[w].(due := None) else watches[w]).(stage := Finished)];
    }

    /** Marks the builder as timed out unless it is gone or finished. */
    method BuildTimeout(got: bool, applied: bool, ok: bool) returns (failed: bool)
      modifies this`store, this`past
      ensures State() == if got && !Over(old(State())) && applied
        then Put(old(State()), TimedOut(old(State()).store.value.status)) else old(State())
      ensures failed <==> !got || (!Over(old(State())) && !(applied && ok))
    {
      if !got {
        return true;
      }
      if store.None? || IsCompleted(store.value.status.state) {
        return false;
      }
      if applied {
        var stored := UpdateStatus(TimedOut(store.value.status));
      }
      failed := !(applied && ok);
    }
  }

  /** The status with the reported result; its phase stays. */
  function Taken(st: BuilderStatus, result: BuilderStatus): BuilderStatus {
    st.(state := result.state, reason := result.reason, message := result.message, output := result.output)
  }

  /** An attempt in one piece. */
  function Whole(p: Params, m: Machine, result: Option<BuilderStatus>): Machine {
    if m.store.None? then Stop(m)
    else
      var st := m.store.value.status;
      if IsCompleted(st.state) then m
      else if p.Late(m.now) then Put(m, TimedOut(st))
      else
        var armed := Step(p, m.(pc := Arming(m.store.value)), Arm).(pc := Idle);
        if st.phase == NoPhase || st.state == NoState
        then Put(Put(armed, EMPTY_BUILDER_STATUS), BUILDING)
        else if result.None? then armed
        else Stop(Put(armed, Taken(st, result.value)))
  }

  /** What a tick of timer `w` leads to, in one piece. */
  function Round(p: Params, m: Machine, w: nat, got: bool, applied: bool, ok: bool): Machine
    requires w in m.watches
  {
    var x := m.watches[w];
    var written := if got && !Over(m) && applied then Put(m, TimedOut(m.store.value.status)) else m;
    if !got || (!Over(m) && !(applied && ok))
    then WithWatch(written, w, Watch(Some(m.now + Delay(x.retries) * SECOND), false, Waiting, x.retries + 1))
    else Ended(WithWatch(written, w, x.(ticked := false, stage := Finishing)), w)
  }

  /** The goroutine stops the timer on record and ends. */
  function Ended(m: Machine, w: nat): Machine
    requires w in m.watches
  {
    var stopped := Stop(m);
    WithWatch(stopped, w, stopped.watches[w].(stage := Finished))
  }

  // ---------- Both are runs of the step machine ----------

  /** What is stored can be read; every run keeps that. */
  predicate Remembered(m: Machine) {
    m.store.Some? ==> m.store.value in m.past
  }

  lemma RunsRemember(p: Params, acts: seq<Action>)
    ensures Remembered(Run(p, acts))
  {
    RunKeepsCopyInv(p, acts);
  }

  lemma StopsAndEnds(p: Params, m: Machine, w: nat)
    requires w in m.watches && m.watches[w].stage.Finishing?
    ensures Reaches(Some(w), p, m, Ended(m, w))
  {
    assert Step(p, m, WatchStop(w)) == Ended(m, w);
    ReachesItself(Some(w), p, Ended(m, w));
    ReachesNext(Some(w), p, m, WatchStop(w), Ended(m, w), Ended(m, w));
  }

  lemma Retries(p: Params, m: Machine, w: nat)
    requires w in m.watches && m.watches[w].stage.Retrying? && !m.watches[w].ticked
    ensures var x := m.watches[w];
      Reaches(Some(w), p, m, WithWatch(m, w, Watch(Some(m.now + Delay(x.retries) * SECOND), false, Waiting, x.retries + 1)))
  {
    var x := m.watches[w];
    var next := WithWatch(m, w, Watch(Some(m.now + Delay(x.retries) * SECOND), false, Waiting, x.retries + 1));
    ReachesItself(Some(w), p, next);
    ReachesNext(Some(w), p, m, Retry(w), next, next);
  }

  lemma HoldsAndWrites(p: Params, m: Machine, w: nat, applied: bool, ok: bool)
    requires w in m.watches && m.watches[w].stage == Fired && !m.watches[w].ticked && !Over(m) && Remembered(m)
    ensures Reaches(Some(w), p, m, Round(p, m, w, true, applied, ok))
  {
    var x := m.watches[w];
    var holding := WithWatch(m, w, x.(stage := Holding(m.store.value)));
    var stored := if applied then Put(m, TimedOut(m.store.value.status)) else m;
    var written := WithWatch(stored, w, x.(stage := if applied && ok then Finishing else Retrying));
    if applied && ok {
      StopsAndEnds(p, written, w);
    } else {
      Retries(p, written, w);
    }
    WritesFrom(p, m, w, applied, ok);
    ReachesNext(Some(w), p, holding, WatchWrite(w, applied, ok), written, Round(p, m, w, true, applied, ok));
    ReachesNext(Some(w), p, m, WatchGet(w, true, m.store), holding, Round(p, m, w, true, applied, ok));
  }

  lemma WritesFrom(p: Params, m: Machine, w: nat, applied: bool, ok: bool)
    requires w in m.watches && m.store.Some?
    ensures var x := m.watches[w];
      Step(p, WithWatch(m, w, x.(stage := Holding(m.store.value))), WatchWrite(w, applied, ok))
        == WithWatch(if applied then Put(m, TimedOut(m.store.value.status)) else m, w,
                     x.(stage := if applied && ok then Finishing else Retrying))
  {
  }

  /** Main result on the goroutine's code: what it does with a tick is a run of its own steps. */
  lemma RoundIsARun(p: Params, m: Machine, w: nat, got: bool, applied: bool, ok: bool)
    requires w in m.watches && m.watches[w].stage.Waiting? && m.watches[w].ticked && Remembered(m)
    ensures Reaches(Some(w), p, m, Round(p, m, w, got, applied, ok))
  {
    var x, m' := m.watches[w].(ticked := false), Round(p, m, w, got, applied, ok);
    var woken := WithWatch(m, w, x.(stage := Fired));
    if !got {
      Retries(p, WithWatch(m, w, x.(stage := Retrying)), w);
      ReachesNext(Some(w), p, woken, WatchGet(w, false, m.store), WithWatch(m, w, x.(stage := Retrying)), m');
    } else if Over(m) {
      StopsAndEnds(p, WithWatch(m, w, x.(stage := Finishing)), w);
      ReachesNext(Some(w), p, woken, WatchGet(w, true, m.store), WithWatch(m, w, x.(stage := Finishing)), m');
    } else {
      HoldsAndWrites(p, woken, w, applied, ok);
      WokenAlike(p, m, w, applied, ok);
    }
    ReachesNext(Some(w), p, m, Wake(w), woken, m');
  }

  lemma WokenAlike(p: Params, m: Machine, w: nat, applied: bool, ok: bool)
    requires w in m.watches && !Over(m)
    ensures Round(p, WithWatch(m, w, m.watches[w].(ticked := false, stage := Fired)), w, true, applied, ok)
      == Round(p, m, w, true, applied, ok)
  {
    var woken := WithWatch(m, w, m.watches[w].(ticked := false, stage := Fired));
    var st := TimedOut(m.store.value.status);
    var written := if applied then Put(m, st) else m;
    assert (if applied then Put(woken, st) else woken) == WithWatch(written, w, woken.watches[w]);
    WatchedTwice(written, w, woken.watches[w], woken.watches[w].(stage := Finishing));
    WatchedTwice(written, w, woken.watches[w],
      Watch(Some(m.now + Delay(m.watches[w].retries) * SECOND), false, Waiting, m.watches[w].retries + 1));
  }

  lemma WatchedTwice(m: Machine, w: nat, first: Watch, second: Watch)
    ensures WithWatch(WithWatch(m, w, first), w, second) == WithWatch(m, w, second)
  {
    assert m.watches[w := first][w := second] == m.watches[w := second];
  }

  lemma TimesOut(p: Params, m: Machine)
    requires m.store.Some? && m.pc == WriteTimeout(m.store.value)
    ensures Reaches(None, p, m, Put(m, TimedOut(m.store.value.status)).(pc := Idle))
  {
    var m' := Put(m, TimedOut(m.store.value.status)).(pc := Idle);
    ReachesItself(None, p, m');
    ReachesNext(None, p, m, Write, m', m');
  }

  lemma StopsAndRests(p: Params, m: Machine)
    requires m.pc.NoBuilder? || m.pc.ResultWritten?
    ensures Reaches(None, p, m, Stop(m).(pc := Idle))
  {
    ReachesItself(None, p, Stop(m).(pc := Idle));
    ReachesNext(None, p, m, StopTimer, Stop(m).(pc := Idle), Stop(m).(pc := Idle));
  }

  lemma TakesResult(p: Params, m: Machine, result: Option<BuilderStatus>)
    requires m.store.Some? && m.pc == Asking(m.store.value) && m.store.value.status.state == Building && MayReport(result)
    ensures Reaches(None, p, m, if result.None? then m.(pc := Idle)
      else Stop(Put(m, Taken(m.store.value.status, result.value))).(pc := Idle))
  {
    if result.None? {
      ReachesItself(None, p, m.(pc := Idle));
      ReachesNext(None, p, m, Answer(None), m.(pc := Idle), m.(pc := Idle));
    } else {
      var writing := m.(pc := WriteResult(m.store.value, result.value));
      var written := Put(m, Taken(m.store.value.status, result.value)).(pc := ResultWritten);
      StopsAndRests(p, written);
      ReachesNext(None, p, writing, Write, written, Stop(written).(pc := Idle));
      ReachesNext(None, p, m, Answer(result), writing, Stop(written).(pc := Idle));
    }
  }

  lemma StartsBuild(p: Params, m: Machine)
    requires m.store.Some? && m.pc == WriteReset(m.store.value)
    ensures Reaches(None, p, m, Put(Put(m, EMPTY_BUILDER_STATUS), BUILDING).(pc := Idle))
  {
    var reset := Put(m, EMPTY_BUILDER_STATUS);
    var copy := reset.store.value;
    var m' := Put(reset, BUILDING).(pc := Idle);
    ReachesItself(None, p, m');
    ReachesNext(None, p, reset.(pc := WriteBuilding(copy)), Write, m', m');
    ReachesNext(None, p, reset.(pc := StartingBuild(copy)), Begin, reset.(pc := WriteBuilding(copy)), m');
    ReachesNext(None, p, m, Write, reset.(pc := StartingBuild(copy)), m');
  }

  lemma Proceeds(p: Params, m: Machine, result: Option<BuilderStatus>)
    requires m.store.Some? && m.pc.Idle? && MayReport(result)
    requires !IsCompleted(m.store.value.status.state) && !p.Late(m.now)
    ensures Reaches(None, p, m.(pc := Arming(m.store.value)), Whole(p, m, result))
  {
    var arming := m.(pc := Arming(m.store.value));
    var armed := Step(p, arming, Arm);
    ArmingKeepsStore(p, arming);
    if armed.pc.Asking? {
      TakesResult(p, armed, result);
    } else {
      StartsBuild(p, armed);
    }
    ReachesNext(None, p, arming, Arm, armed, Whole(p, m, result));
  }

  lemma ArmingKeepsStore(p: Params, m: Machine)
    requires m.store.Some? && m.pc == Arming(m.store.value)
    ensures var st, armed := m.store.value.status, Step(p, m, Arm);
      && armed.store == m.store
      && armed.pc == if st.phase != NoPhase && st.state != NoState then Asking(m.store.value) else WriteReset(m.store.value)
  {
  }

  /** Main result on the controller's code: a whole attempt is a run of the worker's own steps. */
  lemma AttemptIsARun(p: Params, m: Machine, result: Option<BuilderStatus>)
    requires m.pc.Idle? && MayReport(result) && Remembered(m)
    ensures Reaches(None, p, m, Whole(p, m, result))
  {
    if m.store.None? {
      StopsAndRests(p, m.(pc := NoBuilder));
      ReachesNext(None, p, m, Fetch(None), m.(pc := NoBuilder), Stop(m));
    } else {
      var copy := m.store.value;
      var m' := Whole(p, m, result);
      if IsCompleted(copy.status.state) {
        ReachesItself(None, p, m);
        ReachesNext(None, p, m.(pc := Fetched(copy)), Check, m, m');
      } else if p.Late(m.now) {
        TimesOut(p, m.(pc := WriteTimeout(copy)));
        ReachesNext(None, p, m.(pc := Fetched(copy)), Check, m.(pc := WriteTimeout(copy)), m');
      } else {
        Proceeds(p, m, result);
        ReachesNext(None, p, m.(pc := Fetched(copy)), Check, m.(pc := Arming(copy)), m');
      }
      ReachesNext(None, p, m, Fetch(m.store), m.(pc := Fetched(copy)), m');
    }
  }
}

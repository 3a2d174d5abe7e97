/** One attempt of the Serving controller, and what its goroutine does with a tick, as they are written: methods
    that update the stored serving and the table of timers. Each is a run of the step machine. */
module ServingReconciler {
  import opened Api
  import opened ServingController

  /** A call of the worker itself that does not fail, or time that passes between two of them. */
  predicate OfWorker(a: Action) {
    a.Fetch? || a.Check? || a.Arm? || a.Answer? || a.Write? || a.Begin? || a.StopTimer? || a.Advance?
  }

  /** A step of the goroutine that serves timer `w`. */
  predicate OfGoroutine(a: Action, w: nat) {
    || a == Wake(w) || a == WatchStop(w)
    || (a.WatchGet? && a.w == w) || (a.WatchWrite? && a.w == w)
  }

  predicate By(who: Option<nat>, a: Action) {
    match who
    case None => OfWorker(a)
    case Some(w) => OfGoroutine(a, w)
  }

  function Go(p: Params, m: Machine, acts: seq<Action>): Machine
    decreases |acts|
  {
    if acts == [] then m else Go(p, Step(p, m, acts[0]), acts[1..])
  }

  /** By steps of one actor alone - the worker, or the goroutine of a timer - the machine comes from m to m'. */
  ghost predicate Reaches(who: Option<nat>, p: Params, m: Machine, m': Machine) {
    exists acts :: (forall a :: a in acts ==> By(who, a)) && Go(p, m, acts) == m'
  }

  lemma ReachesItself(who: Option<nat>, p: Params, m: Machine)
    ensures Reaches(who, p, m, m)
  {
    assert Go(p, m, []) == m;
  }

  lemma ReachesNext(who: Option<nat>, p: Params, m: Machine, a: Action, next: Machine, m': Machine)
    requires By(who, a) && Step(p, m, a) == next && Reaches(who, p, next, m')
    ensures Reaches(who, p, m, m')
  {
    var acts :| (forall b :: b in acts ==> By(who, b)) && Go(p, next, acts) == m';
    assert ([a] + acts)[1..] == acts;
    assert Go(p, m, [a] + acts) == m';
  }

  /** What is reached from a run is a run; what is proved of all runs holds of it. */
  lemma {:induction false} GoIsARun(p: Params, acts: seq<Action>, more: seq<Action>)
    ensures Go(p, Run(p, acts), more) == Run(p, acts + more)
    decreases |more|
  {
    if more == [] {
      assert acts + more == acts;
    } else {
      assert (acts + [more[0]])[..|acts|] == acts;
      GoIsARun(p, acts + [more[0]], more[1..]);
      assert acts + [more[0]] + more[1..] == acts + more;
    }
  }

  const STARTING := EMPTY_SERVING_STATUS.(phase := ServingPhase, state := Starting)

  /** The results a workload can lead to. */
  predicate MayReport(result: Option<ServingStatus>) {
    result.Some? ==> result.value.state in {Running, Failed}
  }

  /** Has the reported result been recorded already? */
  predicate Known(st: ServingStatus, result: ServingStatus) {
    result.state == st.state && result.reason == st.reason && result.message == st.message
  }

  function Taken(st: ServingStatus, result: ServingStatus): ServingStatus {
    st.(state := result.state, reason := result.reason, message := result.message)
  }

  class Reconciler {
    const p: Params
    var store: Option<Object>
    ghost var past: set<Object>
    var now: nat
    /** All timers with their goroutines, and the one on record in the table of timers. */
    var watches: map<nat, Watch>
    var entry: Option<nat>
    var nextWatch: nat

    constructor (p: Params)
      ensures this.p == p && State() == Init(p)
    {
      this.p := p;
      store, now := Some(Object(EMPTY_SERVING_STATUS, 0)), p.created;
      past, watches, entry, nextWatch := {Object(EMPTY_SERVING_STATUS, 0)}, map[], None, 0;
    }

    ghost function State(): Machine
      reads this
    {
      Machine(store, past, now, Idle, watches, entry, nextWatch)
    }

    method UpdateStatus(st: ServingStatus) returns (stored: Object)
      requires store.Some?
      modifies this`store, this`past
      ensures State() == Put(old(State()), st) && store == Some(stored)
    {
      stored := Object(st, if st == store.value.status then store.value.version else store.value.version + 1);
      store := Some(stored);
      past := past + {stored};
    }

    /** Only a serving that is starting is put under watch. */
    method StartTimer()
      requires store.Some?
      modifies this`watches, this`entry, this`nextWatch
      ensures State() == Step(p, old(State()).(pc := Arming(store.value)), Arm).(pc := Idle)
      ensures
        if store.value.status.state !in {NoState, Starting} || p.timeout.None? || now > p.created + p.timeout.value
           || old(entry).Some?
        then watches == old(watches) && entry == old(entry) && nextWatch == old(nextWatch)
        else
          && entry == Some(old(nextWatch)) && nextWatch == old(nextWatch) + 1
          && watches == old(watches)[old(nextWatch) := Watch(Some(p.created + p.timeout.value), false, Waiting)]
    {
      if !IsStarting(store.value.status.state) || p.timeout.None? || p.Late(now) || entry.Some? {
        return;
      }
      watches := watches[nextWatch := Watch(Some(p.created + p.timeout.value), false, Waiting)];
      entry, nextWatch := Some(nextWatch), nextWatch + 1;
    }

    method StopTimer()
      modifies this`watches, this`entry
      ensures State() == Stop(old(State()))
      ensures old(entry).Some? && old(entry).value in old(watches) ==>
        && entry.None? && watches.Keys == old(watches).Keys && watches[old(entry).value].due.None?
        && forall w :: w in watches && w != old(entry).value ==> watches[w] == old(watches)[w]
    {
      if entry.Some? && entry.value in watches {
        watches, entry := watches[entry.value := watches[entry.value].(due := None)], None;
      }
    }

    method GetServingResult(result: Option<ServingStatus>)
      requires store.Some?
      modifies this
      ensures State() ==
        if result.None? || Known(old(store).value.status, result.value) then old(State())
        else Stop(Put(old(State()), Taken(old(store).value.status, result.value)))
    {
      if result.None? || Known(store.value.status, result.value) {
        return;
      }
      var stored := UpdateStatus(Taken(store.value.status, result.value));
      StopTimer();
    }

    /** A whole attempt; `result` is what the workload reports if it is asked, `elapsed` the time that passes between
        the two looks at the clock. */
    method Reconcile(result: Option<ServingStatus>, elapsed: nat)
      requires MayReport(result)
      modifies this
      ensures State() == Whole(p, old(State()), result, elapsed)
    {
      ghost var m := State();
      if store.None? {
        StopTimer();
        now := now + elapsed;
        return;
      }
      var s := store.value;
      if p.Late(now) {
        if IsStarting(s.status.state) {
          s := UpdateStatus(s.status.(state := Timeout));
        }
        now := now + elapsed;
        return;
      }
      StartTimer();
      now := now + elapsed;
      assert State() == Armed(p, m, elapsed);
      Proceed(s, result);
    }

    /** The part of an attempt that follows the timer; `read` is the serving as it was read. */
    method Proceed(read: Object, result: Option<ServingStatus>)
      requires store == Some(read)
      modifies this
      ensures State() == Outcome(p, old(State()), read.status, result)
    {
      var s := read;
      if s.status.phase != NoPhase && s.status.state != NoState {
        GetServingResult(result);
        return;
      }
      if p.Late(now) {
        s := UpdateStatus(s.status.(phase := ServingPhase, state := Timeout));
        return;
      }
      s := UpdateStatus(EMPTY_SERVING_STATUS);
      s := UpdateStatus(s.status.(phase := ServingPhase, state := Starting));
    }

    /** What the goroutine of timer `w` does with its tick: it tries once, whatever becomes of its calls. */
    method HandleTick(w: nat, got: bool, applied: bool)
      requires w in watches && watches[w] == watches[w].(stage := Waiting, ticked := true)
      modifies this
      ensures State() == Round(p, old(State()), w, got, applied)
    {
      if got && store.Some? && IsStarting(store.value.status.state) && applied {
        var stored := UpdateStatus(store.value.status.(state := Timeout));
      }
      watches := watches[w := watches[w].(ticked := false, stage := Finishing)];
      StopTimer();
      watches := watches[w := watches[w].(stage := Finished)];
    }
  }

  function Later(m: Machine, elapsed: nat): Machine {
    m.(now := m.now + elapsed)
  }

  /** The outcome once the timer is armed. */
  function Outcome(p: Params, m: Machine, st: ServingStatus, result: Option<ServingStatus>): Machine
    requires m.store.Some?
  {
    if st.phase != NoPhase && st.state != NoState then
      if result.None? || Known(st, result.value) then m else Stop(Put(m, Taken(st, result.value)))
    else if p.Late(m.now) then Put(m, st.(phase := ServingPhase, state := Timeout))
    else Put(Put(m, EMPTY_SERVING_STATUS), STARTING)
  }

  function Armed(p: Params, m: Machine, elapsed: nat): Machine
    requires m.store.Some?
  {
    Later(Step(p, m.(pc := Arming(m.store.value)), Arm).(pc := Idle), elapsed)
  }

  /** The outcome of an attempt that ends before that. */
  function EarlyOutcome(m: Machine): Machine {
    if m.store.None? then Stop(m)
    else
      var st := m.store.value.status;
      if IsStarting(st.state) then Put(m, st.(state := Timeout)) else m
  }

  lemma ArmingKeepsStore(p: Params, m: Machine, elapsed: nat)
    requires m.store.Some?
    ensures Armed(p, m, elapsed).store == m.store && Armed(p, m, elapsed).now == m.now + elapsed
  {
  }

  /** An attempt in one piece. */
  function Whole(p: Params, m: Machine, result: Option<ServingStatus>, elapsed: nat): Machine {
    if m.store.None? || p.Late(m.now) then Later(EarlyOutcome(m), elapsed)
    else
      ArmingKeepsStore(p, m, elapsed);
      Outcome(p, Armed(p, m, elapsed), m.store.value.status, result)
  }

  /** What a tick of timer `w` leads to, in one piece. */
  function Round(p: Params, m: Machine, w: nat, got: bool, applied: bool): Machine
    requires w in m.watches
  {
    var starting := got && m.store.Some? && IsStarting(m.store.value.status.state);
    var written := if starting && applied then Put(m, m.store.value.status.(state := Timeout)) else m;
    Ended(written.(watches := m.watches[w := m.watches[w].(ticked := false, stage := Finishing)]), w)
  }

  /** The goroutine stops the timer on record and ends. */
  function Ended(m: Machine, w: nat): Machine
    requires w in m.watches
  {
    var stopped := Stop(m);
    stopped.(watches := stopped.watches[w := stopped.watches[w].(stage := Finished)])
  }

  // ---------- Both are runs of the step machine ----------

  /** What is stored can be read; every run keeps that. */
  predicate Remembered(m: Machine) {
    m.store.Some? ==> m.store.value in m.past
  }

  lemma {:induction false} RunsRemember(p: Params, acts: seq<Action>)
    ensures Remembered(Run(p, acts))
  {
    if acts != [] {
      RunsRemember(p, acts[..|acts| - 1]);
    }
  }

  function WithWatch(m: Machine, w: nat, x: Watch): Machine {
    m.(watches := m.watches[w := x])
  }

  lemma StopsAndEnds(p: Params, m: Machine, w: nat)
    requires w in m.watches && m.watches[w].stage.Finishing?
    ensures Reaches(Some(w), p, m, Ended(m, w))
  {
    assert Step(p, m, WatchStop(w)) == Ended(m, w);
    ReachesItself(Some(w), p, Ended(m, w));
    ReachesNext(Some(w), p, m, WatchStop(w), Ended(m, w), Ended(m, w));
  }

  lemma HoldsAndWrites(p: Params, m: Machine, w: nat, applied: bool)
    requires w in m.watches && m.watches[w].stage == Fired && !m.watches[w].ticked
    requires m.store.Some? && IsStarting(m.store.value.status.state) && Remembered(m)
    ensures Reaches(Some(w), p, m, Round(p, m, w, true, applied))
  {
    var x := m.watches[w];
    var holding := WithWatch(m, w, x.(stage := Holding(m.store.value)));
    var stored := if applied then Put(m, m.store.value.status.(state := Timeout)) else m;
    var written := WithWatch(stored, w, x.(stage := Finishing));
    StopsAndEnds(p, written, w);
    WritesFrom(p, m, w, applied);
    ReachesNext(Some(w), p, holding, WatchWrite(w, applied), written, Round(p, m, w, true, applied));
    ReachesNext(Some(w), p, m, WatchGet(w, true, m.store), holding, Round(p, m, w, true, applied));
  }

  lemma WritesFrom(p: Params, m: Machine, w: nat, applied: bool)
    requires w in m.watches && m.store.Some?
    ensures var x := m.watches[w];
      Step(p, WithWatch(m, w, x.(stage := Holding(m.store.value))), WatchWrite(w, applied))
        == WithWatch(if applied then Put(m, m.store.value.status.(state := Timeout)) else m, w, x.(stage := Finishing))
  {
  }

  /** Main result on the goroutine's code: what it does with a tick is a run of its own steps. */
  lemma RoundIsARun(p: Params, m: Machine, w: nat, got: bool, applied: bool)
    requires w in m.watches && m.watches[w].stage.Waiting? && m.watches[w].ticked && Remembered(m)
    ensures Reaches(Some(w), p, m, Round(p, m, w, got, applied))
  {
    var x, m' := m.watches[w].(ticked := false), Round(p, m, w, got, applied);
    var woken := WithWatch(m, w, x.(stage := Fired));
    if got && m.store.Some? && IsStarting(m.store.value.status.state) {
      HoldsAndWrites(p, woken, w, applied);
      WokenAlike(p, m, w, applied);
    } else {
      StopsAndEnds(p, WithWatch(m, w, x.(stage := Finishing)), w);
      ReachesNext(Some(w), p, woken, WatchGet(w, got, m.store), WithWatch(m, w, x.(stage := Finishing)), m');
    }
    ReachesNext(Some(w), p, m, Wake(w), woken, m');
  }

  lemma WokenAlike(p: Params, m: Machine, w: nat, applied: bool)
    requires w in m.watches
    ensures Round(p, WithWatch(m, w, m.watches[w].(ticked := false, stage := Fired)), w, true, applied)
      == Round(p, m, w, true, applied)
  {
  }

  lemma StopsAndRests(p: Params, m: Machine)
    requires m.pc.NoServing? || m.pc.ResultWritten?
    ensures Reaches(None, p, m, Stop(m).(pc := Idle))
  {
    ReachesItself(None, p, Stop(m).(pc := Idle));
    ReachesNext(None, p, m, StopTimer, Stop(m).(pc := Idle), Stop(m).(pc := Idle));
  }

  /** An attempt may be over before the time has passed that `elapsed` counts. */
  lemma ThenTimePasses(p: Params, m: Machine, m': Machine, elapsed: nat)
    requires m'.pc.Idle? && Reaches(None, p, m, m')
    ensures Reaches(None, p, m, Later(m', elapsed))
  {
    var acts :| (forall a :: a in acts ==> By(None, a)) && Go(p, m, acts) == m';
    GoOnce(p, m, acts, Advance(elapsed));
    assert forall a :: a in acts + [Advance(elapsed)] ==> By(None, a);
  }

  lemma {:induction false} GoOnce(p: Params, m: Machine, acts: seq<Action>, a: Action)
    ensures Go(p, m, acts + [a]) == Step(p, Go(p, m, acts), a)
    decreases |acts|
  {
    if acts == [] {
      assert acts + [a] == [a];
      assert Go(p, Step(p, m, a), []) == Step(p, m, a);
    } else {
      assert (acts + [a])[1..] == acts[1..] + [a];
      GoOnce(p, Step(p, m, acts[0]), acts[1..], a);
    }
  }

  lemma TakesResult(p: Params, m: Machine, result: Option<ServingStatus>)
    requires m.store.Some? && m.pc == Asking(m.store.value) && MayReport(result)
    ensures var st := m.store.value.status;
      Reaches(None, p, m, if result.None? || Known(st, result.value) then m.(pc := Idle)
                          else Stop(Put(m, Taken(st, result.value))).(pc := Idle))
  {
    var st := m.store.value.status;
    if result.None? || Known(st, result.value) {
      ReachesItself(None, p, m.(pc := Idle));
      ReachesNext(None, p, m, Answer(result), m.(pc := Idle), m.(pc := Idle));
    } else {
      var writing := m.(pc := WriteResult(m.store.value, result.value));
      var written := Put(m, Taken(st, result.value)).(pc := ResultWritten);
      StopsAndRests(p, written);
      ReachesNext(None, p, writing, Write, written, Stop(written).(pc := Idle));
      ReachesNext(None, p, m, Answer(result), writing, Stop(written).(pc := Idle));
    }
  }

  lemma Launches(p: Params, m: Machine)
    requires m.store.Some? && m.pc == WriteReset(m.store.value)
    ensures Reaches(None, p, m, Put(Put(m, EMPTY_SERVING_STATUS), STARTING).(pc := Idle))
  {
    var reset := Put(m, EMPTY_SERVING_STATUS);
    var copy := reset.store.value;
    var m' := Put(reset, STARTING).(pc := Idle);
    ReachesItself(None, p, m');
    ReachesNext(None, p, reset.(pc := WriteStarting(copy)), Write, m', m');
    ReachesNext(None, p, reset.(pc := Launching(copy)), Begin, reset.(pc := WriteStarting(copy)), m');
    ReachesNext(None, p, m, Write, reset.(pc := Launching(copy)), m');
  }

  lemma LooksAgain(p: Params, m: Machine)
    requires m.store.Some? && m.pc == CheckingAgain(m.store.value)
    ensures Reaches(None, p, m,
      (if p.Late(m.now) then Put(m, m.store.value.status.(phase := ServingPhase, state := Timeout))
       else Put(Put(m, EMPTY_SERVING_STATUS), STARTING)).(pc := Idle))
  {
    if p.Late(m.now) {
      var m' := Put(m, m.store.value.status.(phase := ServingPhase, state := Timeout)).(pc := Idle);
      ReachesItself(None, p, m');
      ReachesNext(None, p, m.(pc := WriteLateTimeout(m.store.value)), Write, m', m');
      ReachesNext(None, p, m, Check, m.(pc := WriteLateTimeout(m.store.value)), m');
    } else {
      var writing := m.(pc := WriteReset(m.store.value));
      Launches(p, writing);
      ReachesNext(None, p, m, Check, writing, Put(Put(m, EMPTY_SERVING_STATUS), STARTING).(pc := Idle));
    }
  }

  /** The timers once one has been started, if there is one to be started. */
  predicate TimersArmed(p: Params, m: Machine, watches: map<nat, Watch>, entry: Option<nat>)
    requires m.store.Some?
  {
    if m.store.value.status.state in {NoState, Starting} && p.timeout.Some? && m.now <= p.created + p.timeout.value
       && m.entry.None?
    then entry == Some(m.nextWatch)
      && watches == m.watches[m.nextWatch := Watch(Some(p.created + p.timeout.value), false, Waiting)]
    else entry == m.entry && watches == m.watches
  }

  /** For a serving that is gone the timer on record is stopped, and that is all. */
  lemma WhatDeletionBringsAbout(p: Params, m: Machine, result: Option<ServingStatus>, elapsed: nat)
    requires m.store.None?
    ensures var m' := Whole(p, m, result, elapsed);
      && m'.store.None? && m'.watches.Keys == m.watches.Keys
      && (m.entry.Some? && m.entry.value in m.watches ==> m'.entry.None? && m'.watches[m.entry.value].due.None?)
      && (forall w :: w in m.watches && m.entry != Some(w) ==> m'.watches[w] == m.watches[w])
  {
  }

  /** Past the deadline an attempt times a starting serving out, and leaves any other alone. */
  lemma WhatALateAttemptBringsAbout(p: Params, m: Machine, result: Option<ServingStatus>, elapsed: nat)
    requires m.store.Some? && p.timeout.Some? && m.now > p.created + p.timeout.value
    ensures var st, m' := m.store.value.status, Whole(p, m, result, elapsed);
      && m'.store.Some? && m'.now == m.now + elapsed && m'.watches == m.watches && m'.entry == m.entry
      && (st.state in {NoState, Starting} ==>
            m'.store.value.status == ServingStatus(st.phase, Timeout, st.reason, st.message, st.service))
      && (st.state !in {NoState, Starting} ==> m'.store == m.store)
  {
  }

  /** Main result on what an attempt before the deadline brings about: the reported result is taken over if it is news, or
      the serving is launched - unless the deadline passes just then. */
  lemma WhatAnAttemptBringsAbout(p: Params, m: Machine, result: Option<ServingStatus>, elapsed: nat)
    requires m.store.Some? && (p.timeout.None? || m.now <= p.created + p.timeout.value)
    ensures var st, m' := m.store.value.status, Whole(p, m, result, elapsed);
      var lateAgain := p.timeout.Some? && m.now + elapsed > p.created + p.timeout.value;
      && m'.store.Some? && m'.now == m.now + elapsed
      && (st.phase == NoPhase || st.state == NoState ==>
            && TimersArmed(p, m, m'.watches, m'.entry)
            && m'.store.value.status == (
                 if lateAgain then ServingStatus(ServingPhase, Timeout, st.reason, st.message, st.service)
                 else ServingStatus(ServingPhase, Starting, "", "", "")))
      && (st.phase != NoPhase && st.state != NoState ==>
            if result.None? || (result.value.state, result.value.reason, result.value.message)
                                 == (st.state, st.reason, st.message)
            then m'.store == m.store && TimersArmed(p, m, m'.watches, m'.entry)
            else
              && m'.store.value.status == ServingStatus(
                   st.phase, result.value.state, result.value.reason, result.value.message, st.service)
              && (m.entry.Some? && m.entry.value in m.watches ==>
                    m'.entry.None? && m'.watches[m.entry.value].due.None?)
              && (m.entry.None? ==> m'.entry.None?))
  {
  }

  /** Main result on what a tick brings about: a starting serving times out, if the calls for that succeed; the timer on
      record is stopped and the goroutine ends in any case. */
  lemma WhatATickBringsAbout(p: Params, m: Machine, w: nat, got: bool, applied: bool)
    requires w in m.watches
    ensures var m' := Round(p, m, w, got, applied);
      && w in m'.watches && m'.watches[w].stage == Finished && m'.now == m.now
      && (m.entry.Some? && m.entry.value in m.watches ==> m'.entry.None? && m'.watches[m.entry.value].due.None?)
      && (if got && applied && m.store.Some? && m.store.value.status.state in {NoState, Starting} then
            && m'.store.Some?
            && var st := m.store.value.status;
              m'.store.value.status == ServingStatus(st.phase, Timeout, st.reason, st.message, st.service)
          else m'.store == m.store)
  {
  }

  /** What an armed machine is apart from where the worker stands. */
  lemma ArmingAlone(p: Params, m: Machine, elapsed: nat)
    requires m.store.Some? && m.pc.Idle?
    ensures var st, armed := m.store.value.status, Step(p, m.(pc := Arming(m.store.value)), Arm);
      && armed.store == m.store
      && armed.pc == (if st.phase != NoPhase && st.state != NoState then Asking(m.store.value) else CheckingAgain(m.store.value))
      && Later(armed, elapsed).(pc := Idle) == Armed(p, m, elapsed)
      && Step(p, armed, Advance(elapsed)) == Later(armed, elapsed)
  {
  }

  lemma Proceeds(p: Params, m: Machine, result: Option<ServingStatus>, elapsed: nat)
    requires m.store.Some? && m.pc.Idle? && MayReport(result) && !p.Late(m.now)
    ensures Reaches(None, p, m.(pc := Arming(m.store.value)), Whole(p, m, result, elapsed))
  {
    var arming := m.(pc := Arming(m.store.value));
    var armed := Step(p, arming, Arm);
    var later := Later(armed, elapsed);
    ArmingAlone(p, m, elapsed);
    ArmingKeepsStore(p, m, elapsed);
    if armed.pc.Asking? {
      TakesResult(p, later, result);
    } else {
      LooksAgain(p, later);
    }
    OutcomeAlone(p, later, m.store.value.status, result);
    ReachesNext(None, p, armed, Advance(elapsed), later, Whole(p, m, result, elapsed));
    ReachesNext(None, p, arming, Arm, armed, Whole(p, m, result, elapsed));
  }

  lemma OutcomeAlone(p: Params, m: Machine, st: ServingStatus, result: Option<ServingStatus>)
    requires m.store.Some? && m.store.value.status == st
    ensures Outcome(p, m.(pc := Idle), st, result) == Outcome(p, m, st, result).(pc := Idle)
  {
  }

  /** Main result on the controller's code: a whole attempt is a run of the worker's own steps. */
  lemma AttemptIsARun(p: Params, m: Machine, result: Option<ServingStatus>, elapsed: nat)
    requires m.pc.Idle? && MayReport(result) && Remembered(m)
    ensures Reaches(None, p, m, Whole(p, m, result, elapsed))
  {
    if m.store.None? {
      StopsAndRests(p, m.(pc := NoServing));
      ReachesNext(None, p, m, Fetch(m.store), m.(pc := NoServing), Stop(m));
      ThenTimePasses(p, m, Stop(m), elapsed);
    } else {
      var copy := m.store.value;
      var fetched := m.(pc := Fetched(copy));
      if p.Late(m.now) {
        FindsItLate(p, m);
        ReachesNext(None, p, m, Fetch(m.store), fetched, EarlyOutcome(m));
        ThenTimePasses(p, m, EarlyOutcome(m), elapsed);
      } else {
        Proceeds(p, m, result, elapsed);
        ReachesNext(None, p, fetched, Check, m.(pc := Arming(copy)), Whole(p, m, result, elapsed));
        ReachesNext(None, p, m, Fetch(m.store), fetched, Whole(p, m, result, elapsed));
      }
    }
  }

  lemma FindsItLate(p: Params, m: Machine)
    requires m.pc.Idle? && m.store.Some? && p.Late(m.now)
    ensures Reaches(None, p, m.(pc := Fetched(m.store.value)), EarlyOutcome(m))
  {
    var copy, m' := m.store.value, EarlyOutcome(m);
    ReachesItself(None, p, m');
    if IsStarting(copy.status.state) {
      ReachesNext(None, p, m.(pc := WriteTimeout(copy)), Write, m', m');
      ReachesNext(None, p, m.(pc := Fetched(copy)), Check, m.(pc := WriteTimeout(copy)), m');
    } else {
      ReachesNext(None, p, m.(pc := Fetched(copy)), Check, m, m');
    }
  }
}

/** The last successful serving stays until a newer one is recorded, unless a handover breaks off after its
    predecessor was deleted. */
module NoGap {
  import opened Api
  import opened FunctionLogic
  import opened Lifecycle
  import opened Rollout

  /** The stretch in which a serving seen running displaces its predecessor before that is recorded. */
  predicate Handover(pc: Pc) {
    ((pc.ListServings? || pc.CleanServings?) && !pc.making) || pc.WriteServingTracked?
  }

  /** Does the local copy hold a status that is still to be written? */
  predicate Pending(pc: Pc) {
    || pc.WriteTracked? || pc.WriteReset? || pc.WriteMade? || pc.WriteServingReset? || pc.WriteServingMade?
    || Handover(pc)
  }

  // ---------- The status is the worker's own: nothing of it changes behind its back ----------

  ghost predicate SyncInv(m: Machine) {
    && (!m.pc.Idle? && !Pending(m.pc) ==> m.pc.fn.status == m.store.fn.status)
    && (m.pc.WriteTracked? || m.pc.WriteReset? || m.pc.WriteServingReset? ==>
          Last(m.pc.fn.status) == Last(m.store.fn.status))
    && (m.pc.WriteMade? && m.pc.fn.spec.build.Some? ==> Last(m.pc.fn.status) == Last(m.store.fn.status))
    && (m.pc.WriteServingMade? && m.pc.fn.spec.serving.Some? ==> Last(m.pc.fn.status) == Last(m.store.fn.status))
    && (Handover(m.pc) && Last(m.store.fn.status).Some? ==> Last(m.pc.fn.status).Some?)
  }

  lemma BuilderCallKeepsSyncInv(h: Hashes, m: Machine, a: Action)
    requires SyncInv(m) && !m.pc.Idle? && !ServingSide(m.pc)
    ensures SyncInv(BuilderCall(h, m, a))
  {
  }

  lemma ServingCallKeepsSyncInv(h: Hashes, m: Machine, a: Action)
    requires SyncInv(m) && ServingSide(m.pc)
    ensures SyncInv(ServingCall(h, m, a))
  {
  }

  lemma NextKeepsSyncInv(h: Hashes, m: Machine, a: Action)
    requires SyncInv(m)
    ensures SyncInv(Next(h, m, a))
  {
    if ServingSide(m.pc) {
      ServingCallKeepsSyncInv(h, m, a);
    } else if !m.pc.Idle? {
      BuilderCallKeepsSyncInv(h, m, a);
    }
  }

  lemma {:induction false} StatusIsInSync(h: Hashes, spec: FunctionSpec, acts: seq<Action>)
    ensures SyncInv(Run(h, spec, acts))
  {
    if acts != [] {
      StatusIsInSync(h, spec, acts[..|acts| - 1]);
      NextKeepsSyncInv(h, Run(h, spec, acts[..|acts| - 1]), acts[|acts| - 1]);
    }
  }

  /** In every run, failures included, the record of a last successful serving disappears only when the
      build or the serving is being skipped. */
  lemma LastIsForgottenOnlyBySkipping(h: Hashes, spec: FunctionSpec, acts: seq<Action>, a: Action)
    requires Last(Run(h, spec, acts).store.fn.status).Some?
    requires Last(Next(h, Run(h, spec, acts), a).store.fn.status).None?
    ensures var pc := Run(h, spec, acts).pc;
      || (pc.WriteMade? && pc.fn.spec.build.None?)
      || (pc.WriteServingMade? && pc.fn.spec.serving.None?)
  {
    StatusIsInSync(h, spec, acts);
    StatusIsChangedByWriting(h, Run(h, spec, acts), a);
  }

  predicate Writing(pc: Pc) {
    || pc.WriteTracked? || pc.WriteReset? || pc.WriteMade?
    || pc.WriteServingTracked? || pc.WriteServingReset? || pc.WriteServingMade?
  }

  lemma BuilderCallWrites(h: Hashes, m: Machine, a: Action)
    ensures var m' := BuilderCall(h, m, a);
      m'.store.fn.status == m.store.fn.status || (Writing(m.pc) && m'.store.fn.status == m.pc.fn.status)
  {
  }

  lemma ServingCallWrites(h: Hashes, m: Machine, a: Action)
    ensures var m' := ServingCall(h, m, a);
      m'.store.fn.status == m.store.fn.status || (Writing(m.pc) && m'.store.fn.status == m.pc.fn.status)
  {
  }

  lemma StatusIsChangedByWriting(h: Hashes, m: Machine, a: Action)
    ensures var m' := Next(h, m, a);
      m'.store.fn.status == m.store.fn.status || (Writing(m.pc) && m'.store.fn.status == m.pc.fn.status)
  {
    BuilderCallWrites(h, m, a);
    ServingCallWrites(h, m, a);
  }

  // ---------- What may go wrong without leaving a gap ----------

  /** The predecessor has not been given up: there is none, or it is the serving that takes over, or it has not been
      deleted yet. */
  predicate PredecessorIntact(m: Machine)
    requires Handover(m.pc)
  {
    var last := m.store.fn.status;
    || Last(last).None?
    || Last(last) == Last(m.pc.fn.status)
    || m.pc.ListServings?
    || (m.pc.CleanServings? && Last(last).value in m.pc.doomed)
  }

  /** A handover breaks off: a call fails, or the status write that ends it is refused. */
  predicate BreaksOff(m: Machine, a: Action) {
    Handover(m.pc) && (a.Fail? || (m.pc.WriteServingTracked? && a.Write? && !Current(m, m.pc.fn)))
  }

  /** Is this serving the last successful one, on record or about to be recorded? */
  predicate OnRecord(m: Machine, n: Name) {
    Last(m.store.fn.status) == Some(n) || (!m.pc.Idle? && Last(m.pc.fn.status) == Some(n))
  }

  /** Others delete only servings that are not on record, and a handover breaks off only while its predecessor is
      intact. */
  predicate Mild(m: Machine, a: Action) {
    && (a.ServingGone? ==> !OnRecord(m, a.name))
    && (BreaksOff(m, a) ==> PredecessorIntact(m))
  }

  ghost predicate AllMild(h: Hashes, spec: FunctionSpec, acts: seq<Action>) {
    acts != [] ==>
      && AllMild(h, spec, acts[..|acts| - 1])
      && Mild(Run(h, spec, acts[..|acts| - 1]), acts[|acts| - 1])
  }

  /** A recorded serving exists and has been seen running. */
  predicate Serves(m: Machine, n: Option<Name>) {
    n.Some? ==> n.value in m.store.servings && n.value in m.log.ran
  }

  ghost predicate CoverInv(m: Machine) {
    && (!Handover(m.pc) ==> Serves(m, Last(m.store.fn.status)))
    && (!m.pc.Idle? ==> Serves(m, Last(m.pc.fn.status)))
    && (m.pc.CleanServings? ==> m.pc.doomed !! Spared(m.pc.fn.status))
  }

  /** Is this the status with which a serving seen running takes over? */
  predicate TakesOver(st: FunctionStatus) {
    st.serving.Some? && st.serving.value.state == Running && st.serving.value.ref.Some? && Last(st) == Ref(st.serving)
  }

  /** While a serving seen running takes over, the local copy names it as current and as last successful. What is not
      doomed is that serving alone, and the predecessor on record has run. */
  ghost predicate TakeoverInv(m: Machine) {
    && (m.pc.ListServings? && !m.pc.making ==> TakesOver(m.pc.fn.status) && Serves(m, Last(m.store.fn.status)))
    && (m.pc.CleanServings? ==>
          && (Last(m.store.fn.status).Some? && Last(m.store.fn.status).value in m.pc.doomed ==>
                Last(m.store.fn.status).value in m.store.servings)
          && m.store.servings.Keys - m.pc.doomed <= Spared(m.pc.fn.status))
    && (m.pc.CleanServings? && !m.pc.making ==> TakesOver(m.pc.fn.status))
    && (m.pc.WriteServingTracked? ==> m.pc.fn.status.serving.Some?)
    && (m.pc.WriteServingTracked? && m.pc.fn.status.serving.value.state == Running ==>
          TakesOver(m.pc.fn.status) && m.store.servings.Keys <= Spared(m.pc.fn.status))
    && (m.pc.WriteServingTracked? && m.pc.fn.status.serving.value.state != Running ==>
          Last(m.pc.fn.status) == Last(m.store.fn.status))
    && (Handover(m.pc) && Last(m.store.fn.status).Some? ==> Last(m.store.fn.status).value in m.log.ran)
  }

  lemma WhenRecordHolds(m: Machine)
    requires SyncInv(m) && CoverInv(m) && TakeoverInv(m) && Handover(m.pc)
    ensures Serves(m, Last(m.store.fn.status)) <==> PredecessorIntact(m)
  {
    var n := Last(m.store.fn.status);
    if n.Some? && !m.pc.ListServings? && TakesOver(m.pc.fn.status) {
      assert Spared(m.pc.fn.status) == {Last(m.pc.fn.status).value};
      if m.pc.CleanServings? && n.value !in m.pc.doomed && n.value in m.store.servings {
        assert n.value in m.store.servings.Keys - m.pc.doomed;
      }
    }
  }

  lemma LookUpsLeaveServings(h: Hashes, m: Machine, a: Action)
    requires m.pc.DecideBuilder? || m.pc.TrackBuilder? || Writing(m.pc)
    requires !ServingSide(m.pc)
    ensures var m' := BuilderCall(h, m, a);
      && m'.store.servings == m.store.servings && m'.log.ran == m.log.ran
      && !Handover(m'.pc) && !m'.pc.CleanServings?
  {
  }

  lemma BuilderCallLeavesServings(h: Hashes, m: Machine, a: Action)
    requires !m.pc.Idle? && !ServingSide(m.pc)
    ensures var m' := BuilderCall(h, m, a);
      && m'.store.servings == m.store.servings && m'.log.ran == m.log.ran
      && !Handover(m'.pc) && !m'.pc.CleanServings?
  {
    if m.pc.DecideBuilder? || m.pc.TrackBuilder? || Writing(m.pc) {
      LookUpsLeaveServings(h, m, a);
    }
  }

  /** The builder part does not invent a last successful serving. */
  lemma BuilderCallCarriesLast(h: Hashes, m: Machine, a: Action)
    requires !m.pc.Idle? && !ServingSide(m.pc)
    ensures var m' := BuilderCall(h, m, a);
      && Last(m'.store.fn.status) in {Last(m.store.fn.status), Last(m.pc.fn.status)}
      && (!m'.pc.Idle? ==> Last(m'.pc.fn.status) in {Last(m.store.fn.status), Last(m.pc.fn.status), None})
  {
  }

  lemma ServingCallKeepsCoverInv(h: Hashes, m: Machine, a: Action)
    requires SyncInv(m) && CoverInv(m) && ServingSide(m.pc) && !BreaksOff(m, a)
    ensures CoverInv(ServingCall(h, m, a))
  {
  }

  lemma OthersKeepCoverInv(m: Machine, a: Action)
    requires CoverInv(m) && (a.ServingGone? ==> !OnRecord(m, a.name))
    ensures CoverInv(OthersAct(m, a))
  {
  }

  lemma ServingCallKeepsTakeoverInv(h: Hashes, m: Machine, a: Action)
    requires SyncInv(m) && CoverInv(m) && TakeoverInv(m) && ServingSide(m.pc)
    ensures TakeoverInv(ServingCall(h, m, a))
  {
  }

  lemma OthersKeepTakeoverInv(m: Machine, a: Action)
    requires TakeoverInv(m) && (a.ServingGone? ==> !OnRecord(m, a.name))
    ensures TakeoverInv(OthersAct(m, a))
  {
  }

  lemma BuilderCallStaysClear(h: Hashes, m: Machine, a: Action)
    requires !m.pc.Idle? && !ServingSide(m.pc)
    ensures var pc := BuilderCall(h, m, a).pc; !pc.ListServings? && !pc.CleanServings? && !pc.WriteServingTracked?
  {
  }

  lemma BreakingOffKeepsCoverInv(m: Machine)
    requires SyncInv(m) && CoverInv(m) && TakeoverInv(m) && Handover(m.pc) && PredecessorIntact(m)
    ensures CoverInv(m.(pc := Idle))
  {
    WhenRecordHolds(m);
  }

  lemma BreakingOffStops(h: Hashes, m: Machine, a: Action)
    requires BreaksOff(m, a)
    ensures Next(h, m, a) == m.(pc := Idle)
  {
  }

  lemma NextKeepsCoverInv(h: Hashes, m: Machine, a: Action)
    requires SyncInv(m) && CoverInv(m) && TakeoverInv(m) && Mild(m, a)
    ensures CoverInv(Next(h, m, a))
  {
    if BreaksOff(m, a) {
      BreakingOffStops(h, m, a);
      BreakingOffKeepsCoverInv(m);
    } else {
      OthersKeepCoverInv(m, a);
      if !m.pc.Idle? {
        if ServingSide(m.pc) {
          ServingCallKeepsCoverInv(h, m, a);
        } else {
          BuilderCallLeavesServings(h, m, a);
          BuilderCallCarriesLast(h, m, a);
        }
      }
    }
  }

  lemma NextKeepsTakeoverInv(h: Hashes, m: Machine, a: Action)
    requires SyncInv(m) && CoverInv(m) && TakeoverInv(m) && Mild(m, a)
    ensures TakeoverInv(Next(h, m, a))
  {
    OthersKeepTakeoverInv(m, a);
    if ServingSide(m.pc) {
      ServingCallKeepsTakeoverInv(h, m, a);
    } else if !m.pc.Idle? {
      BuilderCallStaysClear(h, m, a);
    }
  }

  lemma {:induction false} MildRunsAreCovered(h: Hashes, spec: FunctionSpec, acts: seq<Action>)
    requires AllMild(h, spec, acts)
    ensures CoverInv(Run(h, spec, acts)) && TakeoverInv(Run(h, spec, acts))
  {
    if acts != [] {
      var before, a := acts[..|acts| - 1], acts[|acts| - 1];
      MildRunsAreCovered(h, spec, before);
      StatusIsInSync(h, spec, before);
      NextKeepsCoverInv(h, Run(h, spec, before), a);
      NextKeepsTakeoverInv(h, Run(h, spec, before), a);
    }
  }

  /** The serving that answers for the function: the one on record, or during a handover the one about to be. */
  function Answering(m: Machine): Option<Name> {
    if Handover(m.pc) then Last(m.pc.fn.status) else Last(m.store.fn.status)
  }

  /** Whatever is edited: a serving on record exists and has run. */
  lemma RecordNamesServing(h: Hashes, spec: FunctionSpec, acts: seq<Action>)
    requires AllMild(h, spec, acts) && Last(Run(h, spec, acts).store.fn.status).Some?
    ensures var m := Run(h, spec, acts);
      var n := Answering(m);
      n.Some? && n.value in m.store.servings && n.value in m.log.ran
  {
    MildRunsAreCovered(h, spec, acts);
    StatusIsInSync(h, spec, acts);
  }

  // ---------- The record persists while building and serving are not switched on or off ----------

  predicate SameKind(a: FunctionSpec, b: FunctionSpec) {
    a.build.Some? == b.build.Some? && a.serving.Some? == b.serving.Some?
  }

  /** No edit switches Spec.Build or Spec.Serving between nil and non-nil. */
  predicate KindsKept(spec: FunctionSpec, acts: seq<Action>) {
    forall a :: a in acts ==> a.Edit? ==> SameKind(a.spec, spec)
  }

  predicate KindInv(spec: FunctionSpec, m: Machine) {
    SameKind(m.store.fn.spec, spec) && (!m.pc.Idle? ==> SameKind(m.pc.fn.spec, spec))
  }

  /** Without a build: once there is a serving condition the skipped build is on record. */
  predicate SkippedOnce(h: Hashes, st: FunctionStatus) {
    && Ref(st.build).None?
    && (st.serving.Some? ==> st.build.Some? && st.build.value.hash == Some(h.builder(ZERO_BUILDER_SPEC)))
  }

  predicate NoBuildInv(h: Hashes, m: Machine) {
    && SkippedOnce(h, m.store.fn.status)
    && (!m.pc.Idle? ==> SkippedOnce(h, m.pc.fn.status))
    && (Resetting(m.pc) || m.pc.WriteMade? ==> m.store.fn.status.serving.None?)
    && (Resetting(m.pc) ==> m.pc.fn.status.serving.None?)
    && (MakingServing(m.pc) || m.pc.WriteServingReset? ==> m.pc.fn.status.serving.Some?)
  }

  /** Without a serving: none was ever referred to. */
  predicate NeverServed(st: FunctionStatus) {
    Ref(st.serving).None? && Last(st).None?
  }

  predicate NoServingInv(m: Machine) {
    m.log.ran == {} && NeverServed(m.store.fn.status) && (!m.pc.Idle? ==> NeverServed(m.pc.fn.status))
  }

  lemma ZeroHash(h: Hashes)
    ensures BuilderHash(h, ZERO_BUILDER_SPEC) == h.builder(ZERO_BUILDER_SPEC)
  {
    assert ZERO_BUILDER_SPEC.(build := ZERO_BUILD, cancelled := false) == ZERO_BUILDER_SPEC;
  }

  lemma NextKeepsKind(h: Hashes, spec: FunctionSpec, m: Machine, a: Action)
    requires KindInv(spec, m) && (a.Edit? ==> SameKind(a.spec, spec))
    ensures KindInv(spec, Next(h, m, a))
  {
  }

  lemma BuilderCallKeepsNoBuild(h: Hashes, spec: FunctionSpec, m: Machine, a: Action)
    requires KindInv(spec, m) && spec.build.None? && NoBuildInv(h, m) && SyncInv(m)
    requires !m.pc.Idle? && !ServingSide(m.pc)
    ensures NoBuildInv(h, BuilderCall(h, m, a))
  {
    ZeroHash(h);
  }

  lemma ServingCallKeepsNoBuild(h: Hashes, m: Machine, a: Action)
    requires NoBuildInv(h, m) && ServingSide(m.pc)
    ensures NoBuildInv(h, ServingCall(h, m, a))
  {
  }

  lemma NextKeepsNoBuild(h: Hashes, spec: FunctionSpec, m: Machine, a: Action)
    requires KindInv(spec, m) && spec.build.None? && NoBuildInv(h, m) && SyncInv(m)
    ensures NoBuildInv(h, Next(h, m, a))
  {
    if ServingSide(m.pc) {
      ServingCallKeepsNoBuild(h, m, a);
    } else if !m.pc.Idle? {
      BuilderCallKeepsNoBuild(h, spec, m, a);
    }
  }

  lemma BuilderCallKeepsNoServing(h: Hashes, m: Machine, a: Action)
    requires NoServingInv(m) && !m.pc.Idle? && !ServingSide(m.pc)
    ensures NoServingInv(BuilderCall(h, m, a))
  {
  }

  lemma ServingCallKeepsNoServing(h: Hashes, spec: FunctionSpec, m: Machine, a: Action)
    requires KindInv(spec, m) && spec.serving.None? && NoServingInv(m) && ServingSide(m.pc)
    ensures NoServingInv(ServingCall(h, m, a))
  {
  }

  lemma NextKeepsNoServing(h: Hashes, spec: FunctionSpec, m: Machine, a: Action)
    requires KindInv(spec, m) && spec.serving.None? && NoServingInv(m)
    ensures NoServingInv(Next(h, m, a))
  {
    if ServingSide(m.pc) {
      ServingCallKeepsNoServing(h, spec, m, a);
    } else if !m.pc.Idle? {
      BuilderCallKeepsNoServing(h, m, a);
    }
  }

  lemma {:induction false} RunKeepsKind(h: Hashes, spec: FunctionSpec, acts: seq<Action>)
    requires KindsKept(spec, acts)
    ensures var m := Run(h, spec, acts);
      && KindInv(spec, m)
      && (spec.build.None? ==> NoBuildInv(h, m))
      && (spec.serving.None? ==> NoServingInv(m))
  {
    if acts != [] {
      var before, a := acts[..|acts| - 1], acts[|acts| - 1];
      RunKeepsKind(h, spec, before);
      StatusIsInSync(h, spec, before);
      NextKeepsKind(h, spec, Run(h, spec, before), a);
      if spec.build.None? {
        NextKeepsNoBuild(h, spec, Run(h, spec, before), a);
      }
      if spec.serving.None? {
        NextKeepsNoServing(h, spec, Run(h, spec, before), a);
      }
    }
  }

  lemma NextKeepsRecord(h: Hashes, spec: FunctionSpec, acts: seq<Action>, a: Action)
    requires KindsKept(spec, acts) && Last(Run(h, spec, acts).store.fn.status).Some?
    ensures Last(Next(h, Run(h, spec, acts), a).store.fn.status).Some?
  {
    RunKeepsKind(h, spec, acts);
    if Last(Next(h, Run(h, spec, acts), a).store.fn.status).None? {
      LastIsForgottenOnlyBySkipping(h, spec, acts, a);
    }
  }

  /** Main result: in every run whose edits switch neither building nor serving on or off, failures included, a last
      successful serving once recorded is on record for ever. */
  lemma {:induction false} LastIsNeverForgotten(h: Hashes, spec: FunctionSpec, acts: seq<Action>, more: seq<Action>)
    requires KindsKept(spec, acts + more)
    requires Last(Run(h, spec, acts).store.fn.status).Some?
    ensures Last(Run(h, spec, acts + more).store.fn.status).Some?
    decreases |more|
  {
    if more == [] {
      assert acts + more == acts;
    } else {
      var init, a := more[..|more| - 1], more[|more| - 1];
      assert (acts + more)[..|acts + more| - 1] == acts + init;
      assert forall x :: x in acts + init ==> x in acts + more;
      LastIsNeverForgotten(h, spec, acts, init);
      NextKeepsRecord(h, spec, acts + init, a);
    }
  }

  /** Main result: in runs whose edits switch neither building nor serving on or off, once a last successful serving
      is on record there is one that exists and has run at every later moment, although calls fail and writes are
      refused - if only no handover breaks off with its predecessor gone. */
  lemma RolloutLeavesNoGap(h: Hashes, spec: FunctionSpec, acts: seq<Action>, more: seq<Action>)
    requires AllMild(h, spec, acts + more) && KindsKept(spec, acts + more)
    requires Last(Run(h, spec, acts).store.fn.status).Some?
    ensures var m := Run(h, spec, acts + more);
      var n := Answering(m);
      n.Some? && n.value in m.store.servings && n.value in m.log.ran
  {
    LastIsNeverForgotten(h, spec, acts, more);
    RecordNamesServing(h, spec, acts + more);
  }

  /** Once a serving has been seen running, it or a later one is on record or is being recorded. */
  predicate RanInv(m: Machine) {
    m.log.ran != {} ==> Answering(m).Some?
  }

  /** Nor does the very first handover break off. */
  predicate Steady(m: Machine, a: Action) {
    BreaksOff(m, a) ==> Last(m.store.fn.status).Some?
  }

  ghost predicate AllSteady(h: Hashes, spec: FunctionSpec, acts: seq<Action>) {
    acts != [] ==>
      && AllSteady(h, spec, acts[..|acts| - 1])
      && Steady(Run(h, spec, acts[..|acts| - 1]), acts[|acts| - 1])
  }

  lemma BuilderCallKeepsRan(h: Hashes, m: Machine, a: Action)
    requires RanInv(m) && !m.pc.Idle? && !ServingSide(m.pc)
    requires Last(m.store.fn.status).Some? ==> Last(BuilderCall(h, m, a).store.fn.status).Some?
    ensures RanInv(BuilderCall(h, m, a))
  {
    BuilderCallLeavesServings(h, m, a);
  }

  lemma ServingCallKeepsRan(h: Hashes, m: Machine, a: Action)
    requires RanInv(m) && SyncInv(m) && ServingSide(m.pc) && Steady(m, a)
    requires Last(m.store.fn.status).Some? ==> Last(ServingCall(h, m, a).store.fn.status).Some?
    ensures RanInv(ServingCall(h, m, a))
  {
  }

  lemma {:induction false} SteadyRunsRecordRunning(h: Hashes, spec: FunctionSpec, acts: seq<Action>)
    requires AllSteady(h, spec, acts) && KindsKept(spec, acts)
    ensures RanInv(Run(h, spec, acts))
  {
    if acts != [] {
      var before, a := acts[..|acts| - 1], acts[|acts| - 1];
      var m := Run(h, spec, before);
      SteadyRunsRecordRunning(h, spec, before);
      StatusIsInSync(h, spec, before);
      if Last(m.store.fn.status).Some? {
        NextKeepsRecord(h, spec, before, a);
      }
      if ServingSide(m.pc) {
        ServingCallKeepsRan(h, m, a);
      } else if !m.pc.Idle? {
        BuilderCallKeepsRan(h, m, a);
      }
    }
  }

  /** Main result on the beginning: if moreover the first handover does not break off, one exists and has run from
      the moment a serving is seen running. */
  lemma RunningIsNeverLost(h: Hashes, spec: FunctionSpec, acts: seq<Action>)
    requires AllMild(h, spec, acts) && AllSteady(h, spec, acts) && KindsKept(spec, acts)
    requires Run(h, spec, acts).log.ran != {}
    ensures var m := Run(h, spec, acts);
      var n := Answering(m);
      n.Some? && n.value in m.store.servings && n.value in m.log.ran
  {
    SteadyRunsRecordRunning(h, spec, acts);
    MildRunsAreCovered(h, spec, acts);
  }

  /** Main result on the handover: exactly when it may break off, in every run that has left no gap so far. A call
      that fails at any point of it, or the status write that ends it, leaves a record that holds if and only if that
      write was accepted or the predecessor was still there. */
  lemma WhenHandoverLeavesNoGap(h: Hashes, spec: FunctionSpec, acts: seq<Action>, a: Action)
    requires AllMild(h, spec, acts) && Handover(Run(h, spec, acts).pc)
    requires a.Fail? || (a.Write? && Run(h, spec, acts).pc.WriteServingTracked?)
    ensures var m, m' := Run(h, spec, acts), Next(h, Run(h, spec, acts), a);
      && m'.pc.Idle?
      && (Serves(m', Last(m'.store.fn.status)) <==> !BreaksOff(m, a) || PredecessorIntact(m))
      && (!BreaksOff(m, a) ==> Last(m'.store.fn.status) == Last(m.pc.fn.status))
  {
    MildRunsAreCovered(h, spec, acts);
    StatusIsInSync(h, spec, acts);
    WhenRecordHolds(Run(h, spec, acts));
  }
}

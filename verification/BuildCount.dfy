/** How many builders a function ever gets, call by call: one, and one more for each edit that concerns its build,
    each builder that others delete and each new builder whose name could not be recorded - provided there is room
    to keep a failed and a successful build. */
module BuildCount {
  import opened Api
  import opened FunctionLogic
  import opened BuilderHistory
  import opened Lifecycle
  import opened Rollout
  import opened NoGap

  /** The worker has created a builder and has yet to record it. */
  predicate Unrecorded(pc: Pc) {
    pc.WriteMade? && Ref(pc.fn.status.build).Some?
  }

  /** What may make another builder necessary: an edit that concerns the build, a deletion by others, or the loss
      of a new builder's name because the write that records it fails or is refused. */
  function Cause(h: Hashes, m: Machine, a: Action): nat {
    match a
    case Edit(spec) => if Concerns(h, m.store.fn.spec, spec) then 1 else 0
    case BuilderGone(n) => if n in m.store.builders then 1 else 0
    case Fail => if Unrecorded(m.pc) then 1 else 0
    case Write => if Unrecorded(m.pc) && !Current(m, m.pc.fn) then 1 else 0
    case _ => 0
  }

  ghost function Causes(h: Hashes, spec: FunctionSpec, acts: seq<Action>): nat {
    if acts == [] then 0
    else Causes(h, spec, acts[..|acts| - 1]) + Cause(h, Run(h, spec, acts[..|acts| - 1]), acts[|acts| - 1])
  }

  /** There is a place for a failed and for a successful build, if anything is built. */
  predicate Roomy(spec: FunctionSpec) {
    spec.build.Some? ==> FailedLimit(spec) >= 1 && SuccessfulLimit(spec) >= 1
  }

  /** The server's clock moves on between the creation of two builders. */
  ghost predicate Later(m: Machine, a: Action) {
    m.pc.MakeBuilder? && a.Make? ==> forall n :: n in m.store.builders ==> m.store.builders[n].created < a.at
  }

  /** In the course of a run: growing creation times, and only specifications with room. */
  ghost predicate Orderly(h: Hashes, spec: FunctionSpec, acts: seq<Action>) {
    if acts == [] then Roomy(spec)
    else
      var m, a := Run(h, spec, acts[..|acts| - 1]), acts[|acts| - 1];
      Orderly(h, spec, acts[..|acts| - 1]) && Later(m, a) && (a.Edit? ==> Roomy(a.spec))
  }

  // ---------- What every such run keeps ----------

  ghost predicate IsNewest(bs: map<Name, Builder>, n: Name) {
    n in bs ==> forall k :: k in bs && k != n ==> bs[k].created < bs[n].created
  }

  /** The recorded builder, and a new one still to be recorded, are the newest. */
  ghost predicate NewestInv(m: Machine) {
    && (Ref(m.store.fn.status.build).Some? ==> IsNewest(m.store.builders, Ref(m.store.fn.status.build).value))
    && (Unrecorded(m.pc) ==> IsNewest(m.store.builders, Ref(m.pc.fn.status.build).value))
  }

  predicate RoomInv(m: Machine) {
    Roomy(m.store.fn.spec) && (!m.pc.Idle? ==> Roomy(m.pc.fn.spec))
  }

  /** How the build in the local copy relates to the recorded one while a write is pending. */
  predicate CopyInv(m: Machine) {
    var stored := m.store.fn.status.build;
    && (ServingSide(m.pc) ==> m.pc.fn.status.build == stored)
    && (m.pc.WriteReset? ==> m.pc.fn.status == ResetBuild(m.store.fn.status))
    && (m.pc.WriteTracked? ==>
          && stored.Some? && m.pc.fn.status.build.Some?
          && m.pc.fn.status.build.value.ref == stored.value.ref
          && m.pc.fn.status.build.value.hash == stored.value.hash
          && (stored.value.state == Succeeded ==> m.pc.fn.status.build.value.state == Succeeded))
  }

  /** The recorded builder is not about to be pruned. */
  predicate DoomInv(m: Machine) {
    m.pc.Prune? && m.pc.fn.spec.build.Some? && Ref(m.store.fn.status.build).Some? ==>
      Ref(m.store.fn.status.build).value !in m.pc.doomed
  }

  predicate ResetInv(h: Hashes, m: Machine) {
    m.pc.WriteReset? && Current(m, m.pc.fn) ==> Needs(h, m.store)
  }

  /** What is about to be recorded belongs to the build of the local copy. */
  predicate MadeInv(h: Hashes, m: Machine) {
    m.pc.WriteMade? ==> BuildCurrent(h, m.pc.fn) && (Unrecorded(m.pc) ==> m.pc.fn.status.build.value.state == Created)
  }

  /** Past the reset of its attempt the worker creates a builder whatever happens to the function. */
  predicate WillMake(pc: Pc) {
    Resetting(pc) && !pc.WriteReset? && pc.fn.spec.build.Some?
  }

  /** The worker does not know yet that there is something to build. */
  predicate Outdated(m: Machine) {
    !m.pc.Idle? && m.pc.fn.spec.build.None? && m.store.fn.spec.build.Some?
  }

  /** Is another builder due? */
  predicate Due(h: Hashes, m: Machine) {
    if Unrecorded(m.pc) then Ref(m.pc.fn.status.build).value !in m.store.builders
    else Needs(h, m.store) || WillMake(m.pc) || Outdated(m)
  }

  ghost predicate BaseInv(h: Hashes, m: Machine) {
    LogInv(m) && OutcomeInv(m) && SnapshotInv(m) && RecordInv(h, m) && SyncInv(m)
  }

  ghost predicate CountInv(h: Hashes, m: Machine) {
    NewestInv(m) && RoomInv(m) && CopyInv(m) && DoomInv(m) && ResetInv(h, m) && MadeInv(h, m)
  }

  // ---------- A builder is created only when one is due ----------

  /** A step makes at most one builder due, and only for a cause; a builder that is created is due no more. */
  predicate Accounted(h: Hashes, m: Machine, a: Action, m': Machine) {
    && (m'.log.born.Keys == m.log.born.Keys ==> (Due(h, m') ==> Due(h, m) || Cause(h, m, a) >= 1))
    && (m'.log.born.Keys != m.log.born.Keys ==>
          Due(h, m) && !Due(h, m') && m'.log.born.Keys == m.log.born.Keys + {m.store.next})
  }

  predicate ByOthers(a: Action) {
    a.Edit? || a.BuilderMoves? || a.BuilderGone? || a.ServingMoves? || a.ServingGone?
  }

  lemma OthersKeepNewest(m: Machine, a: Action)
    requires NewestInv(m) && ByOthers(a)
    ensures NewestInv(OthersAct(m, a))
  {
  }

  lemma OthersKeepRest(h: Hashes, m: Machine, a: Action)
    requires RoomInv(m) && CopyInv(m) && DoomInv(m) && SnapshotInv(m) && ByOthers(a) && (a.Edit? ==> Roomy(a.spec))
    ensures RoomInv(OthersAct(m, a)) && CopyInv(OthersAct(m, a)) && DoomInv(OthersAct(m, a))
  {
  }

  lemma OthersKeepReset(h: Hashes, m: Machine, a: Action)
    requires ResetInv(h, m) && SnapshotInv(m) && ByOthers(a)
    ensures ResetInv(h, OthersAct(m, a))
  {
  }

  lemma OthersAreAccounted(h: Hashes, m: Machine, a: Action)
    requires ByOthers(a)
    ensures Accounted(h, m, a, OthersAct(m, a))
  {
  }

  // ---------- The worker's steps ----------

  ghost predicate Kept(h: Hashes, m: Machine, a: Action, m': Machine) {
    CountInv(h, m') && Accounted(h, m, a, m')
  }

  /** Stopping, for whatever reason, makes nothing due without a cause. */
  lemma StoppingIsKept(h: Hashes, m: Machine, a: Action)
    requires CountInv(h, m) && (Unrecorded(m.pc) ==> Cause(h, m, a) >= 1)
    ensures Kept(h, m, a, m.(pc := Idle))
  {
  }

  lemma DecidingIsKept(h: Hashes, m: Machine, a: Action)
    requires BaseInv(h, m) && CountInv(h, m) && m.pc.DecideBuilder?
    ensures Kept(h, m, a, BuilderCall(h, m, a))
  {
  }

  lemma TrackedSuccessStays(h: Hashes, m: Machine)
    requires BaseInv(h, m) && m.pc.TrackBuilder?
    requires Ref(m.pc.fn.status.build).Some? && Ref(m.pc.fn.status.build).value in m.store.builders
    ensures var n := Ref(m.pc.fn.status.build).value;
      m.pc.fn.status.build.value.state == Succeeded ==> m.store.builders[n].status.state == Succeeded
  {
  }

  /** Following a builder without anything to record. */
  lemma PassingIsKept(h: Hashes, m: Machine, a: Action, m': Machine)
    requires BaseInv(h, m) && CountInv(h, m) && m.pc.TrackBuilder?
    requires m'.pc in {m.pc, Idle, DecideServing(m.pc.fn), ListToPrune(m.pc.fn, false)} && m' == m.(pc := m'.pc)
    ensures Kept(h, m, a, m')
  {
  }

  lemma TrackedIsKept(h: Hashes, m: Machine, a: Action, m': Machine)
    requires BaseInv(h, m) && CountInv(h, m) && m.pc.TrackBuilder?
    requires Ref(m.pc.fn.status.build).Some? && Ref(m.pc.fn.status.build).value in m.store.builders
    requires m' == m.(pc := WriteTracked(m.pc.fn.(status :=
      RecordBuild(m.pc.fn.status, m.store.builders[Ref(m.pc.fn.status.build).value].status))))
    ensures Kept(h, m, a, m')
  {
    TrackedSuccessStays(h, m);
    TrackedKeepsCount(h, m, m');
    TrackedIsAccounted(h, m, a, m');
  }

  /** Recording an outcome: the pending write concerns the recorded builder and does not take back a success. */
  lemma TrackedKeepsCount(h: Hashes, m: Machine, m': Machine)
    requires SyncInv(m) && CountInv(h, m) && m.pc.TrackBuilder? && m'.pc.WriteTracked? && m' == m.(pc := m'.pc)
    requires m'.pc.fn.spec == m.pc.fn.spec && m.pc.fn.status.build.Some? && m'.pc.fn.status.build.Some?
    requires var before, after := m.pc.fn.status.build.value, m'.pc.fn.status.build.value;
      && after.ref == before.ref && after.hash == before.hash
      && (before.state == Succeeded ==> after.state == Succeeded)
    ensures CountInv(h, m')
  {
  }

  lemma TrackedIsAccounted(h: Hashes, m: Machine, a: Action, m': Machine)
    requires m.pc.TrackBuilder? && m'.pc.WriteTracked? && m' == m.(pc := m'.pc)
    requires m'.pc.fn.spec == m.pc.fn.spec
    ensures Accounted(h, m, a, m')
  {
  }

  lemma TrackingIsKept(h: Hashes, m: Machine, a: Action)
    requires BaseInv(h, m) && CountInv(h, m) && m.pc.TrackBuilder?
    ensures Kept(h, m, a, BuilderCall(h, m, a))
  {
    TrackingLeads(h, m, a);
    var m' := BuilderCall(h, m, a);
    if m'.pc.WriteTracked? {
      TrackedIsKept(h, m, a, m');
    } else {
      PassingIsKept(h, m, a, m');
    }
  }

  lemma RecordingIsKept(h: Hashes, m: Machine, a: Action)
    requires BaseInv(h, m) && CountInv(h, m) && m.pc.WriteTracked?
    ensures Kept(h, m, a, BuilderCall(h, m, a))
  {
  }

  lemma ResettingIsKept(h: Hashes, m: Machine, a: Action)
    requires BaseInv(h, m) && CountInv(h, m) && m.pc.WriteReset?
    ensures Kept(h, m, a, BuilderCall(h, m, a))
  {
  }

  lemma CancellingIsKept(h: Hashes, m: Machine, a: Action)
    requires BaseInv(h, m) && CountInv(h, m) && (m.pc.ListToCancel? || m.pc.Cancel?)
    ensures Kept(h, m, a, BuilderCall(h, m, a))
  {
  }

  /** With room the recorded builder is never among those that a listing dooms. */
  lemma RecordedSurvives(h: Hashes, m: Machine, kept: set<Name>, n: Name)
    requires NewestInv(m) && RoomInv(m) && SyncInv(m) && m.pc.ListToPrune? && m.pc.fn.spec.build.Some?
    requires LegalPrune(m.store.builders, kept, LimitsOf(m.pc.fn.spec))
    requires Ref(m.store.fn.status.build) == Some(n) && n in m.store.builders
    ensures n in kept
  {
    NewestSurvives(m.store.builders, kept, LimitsOf(m.pc.fn.spec), n);
  }

  /** Where a listing leads the worker. */
  lemma ListingLeads(h: Hashes, m: Machine, a: Action)
    requires m.pc.ListToPrune?
    ensures var m' := BuilderCall(h, m, a);
      || m' == m
      || (a.List? && LegalPrune(m.store.builders, a.kept, LimitsOf(m.pc.fn.spec))
          && m' == m.(pc := Prune(m.pc.fn, m.store.builders.Keys - a.kept, m.pc.making)))
  {
  }

  lemma ListingIsKept(h: Hashes, m: Machine, a: Action)
    requires BaseInv(h, m) && CountInv(h, m) && m.pc.ListToPrune?
    ensures Kept(h, m, a, BuilderCall(h, m, a))
  {
    ListingLeads(h, m, a);
    var m', ref := BuilderCall(h, m, a), Ref(m.store.fn.status.build);
    if m'.pc.Prune? {
      if m.pc.fn.spec.build.Some? && ref.Some? && ref.value in m.store.builders {
        RecordedSurvives(h, m, a.kept, ref.value);
      }
      PruneIsKept(h, m, a, m');
    }
  }

  lemma PruneIsKept(h: Hashes, m: Machine, a: Action, m': Machine)
    requires CountInv(h, m) && m.pc.ListToPrune? && m'.pc.Prune?
    requires m' == m.(pc := Prune(m.pc.fn, m'.pc.doomed, m.pc.making)) && DoomInv(m')
    ensures Kept(h, m, a, m')
  {
  }

  lemma PruningIsKept(h: Hashes, m: Machine, a: Action)
    requires BaseInv(h, m) && CountInv(h, m) && m.pc.Prune?
    ensures Kept(h, m, a, BuilderCall(h, m, a))
  {
    if a.Touch? {
      DeletingIsKept(h, m, a);
    } else {
      PruningEndsKept(h, m, a);
    }
  }

  lemma DeletingIsKept(h: Hashes, m: Machine, a: Action)
    requires BaseInv(h, m) && CountInv(h, m) && m.pc.Prune? && a.Touch?
    ensures Kept(h, m, a, BuilderCall(h, m, a))
  {
  }

  lemma PruningEndsKept(h: Hashes, m: Machine, a: Action)
    requires BaseInv(h, m) && CountInv(h, m) && m.pc.Prune? && !a.Touch?
    ensures Kept(h, m, a, BuilderCall(h, m, a))
  {
  }

  lemma MakingIsKept(h: Hashes, m: Machine, a: Action)
    requires BaseInv(h, m) && CountInv(h, m) && m.pc.MakeBuilder? && Later(m, a)
    ensures Kept(h, m, a, BuilderCall(h, m, a))
  {
  }

  lemma RecordingNewIsKept(h: Hashes, m: Machine, a: Action)
    requires BaseInv(h, m) && CountInv(h, m) && m.pc.WriteMade?
    ensures Kept(h, m, a, BuilderCall(h, m, a))
  {
    if a.Write? {
      if Current(m, m.pc.fn) {
        MadeIsRecorded(h, m, a);
      } else {
        StoppingIsKept(h, m, a);
      }
    }
  }

  lemma MadeIsRecorded(h: Hashes, m: Machine, a: Action)
    requires BaseInv(h, m) && CountInv(h, m) && m.pc.WriteMade? && a.Write? && Current(m, m.pc.fn)
    ensures
      var stored := StoreStatus(m, m.pc.fn);
      Kept(h, m, a, stored.(pc := DecideServing(stored.store.fn)))
  {
  }

  /** The serving part leaves alone everything that counts here. */
  lemma ServingCallKeepsBuild(h: Hashes, m: Machine, a: Action)
    requires CopyInv(m) && ServingSide(m.pc)
    ensures var m' := ServingCall(h, m, a);
      && m'.store.builders == m.store.builders && m'.log.born == m.log.born
      && m'.store.fn.status.build == m.store.fn.status.build && m'.store.fn.spec == m.store.fn.spec
      && (m'.pc.Idle? || ServingSide(m'.pc))
  {
  }

  lemma ServingCallKeepsCopy(h: Hashes, m: Machine, a: Action)
    requires BaseInv(h, m) && CopyInv(m) && RoomInv(m) && ServingSide(m.pc)
    ensures CopyInv(ServingCall(h, m, a)) && RoomInv(ServingCall(h, m, a))
    ensures Outdated(ServingCall(h, m, a)) ==> Outdated(m)
  {
  }

  lemma ServingSideIsKept(h: Hashes, m: Machine, a: Action)
    requires BaseInv(h, m) && CountInv(h, m) && ServingSide(m.pc)
    ensures Kept(h, m, a, ServingCall(h, m, a))
  {
    ServingCallKeepsBuild(h, m, a);
    ServingCallKeepsCopy(h, m, a);
  }

  // ---------- Whole runs ----------

  lemma OthersAreKept(h: Hashes, m: Machine, a: Action)
    requires BaseInv(h, m) && CountInv(h, m) && ByOthers(a) && (a.Edit? ==> Roomy(a.spec))
    ensures Kept(h, m, a, OthersAct(m, a))
  {
    OthersKeepNewest(m, a);
    OthersKeepRest(h, m, a);
    OthersKeepReset(h, m, a);
    OthersAreAccounted(h, m, a);
  }

  lemma FetchIsKept(h: Hashes, m: Machine, a: Action)
    requires CountInv(h, m) && m.pc.Idle?
    ensures Kept(h, m, a, m) && Kept(h, m, a, m.(pc := DecideBuilder(m.store.fn)))
  {
  }

  lemma BuilderCallIsKept(h: Hashes, m: Machine, a: Action)
    requires BaseInv(h, m) && CountInv(h, m) && Later(m, a) && !m.pc.Idle? && !ServingSide(m.pc)
    ensures Kept(h, m, a, BuilderCall(h, m, a))
  {
    match m.pc
    case DecideBuilder(_) => DecidingIsKept(h, m, a);
    case TrackBuilder(_) => TrackingIsKept(h, m, a);
    case WriteTracked(_) => RecordingIsKept(h, m, a);
    case WriteReset(_) => ResettingIsKept(h, m, a);
    case ListToCancel(_) => CancellingIsKept(h, m, a);
    case Cancel(_, _, _) => CancellingIsKept(h, m, a);
    case ListToPrune(_, _) => ListingIsKept(h, m, a);
    case Prune(_, _, _) => PruningIsKept(h, m, a);
    case MakeBuilder(_) => MakingIsKept(h, m, a);
    case WriteMade(_) => RecordingNewIsKept(h, m, a);
    case _ =>
  }

  lemma NextIsKept(h: Hashes, m: Machine, a: Action)
    requires BaseInv(h, m) && CountInv(h, m) && Later(m, a) && (a.Edit? ==> Roomy(a.spec))
    ensures Kept(h, m, a, Next(h, m, a))
  {
    if ByOthers(a) {
      OthersAreKept(h, m, a);
    } else if a.Fail? {
      StoppingIsKept(h, m, a);
    } else if m.pc.Idle? {
      FetchIsKept(h, m, a);
    } else if ServingSide(m.pc) {
      ServingSideIsKept(h, m, a);
    } else {
      BuilderCallIsKept(h, m, a);
    }
  }

  lemma OneMoreName(before: set<Name>, after: set<Name>, n: Name)
    requires after == before + {n}
    ensures |after| <= |before| + 1
  {
    if n in before {
      assert after == before;
    }
  }

  lemma StartsInOrder(h: Hashes, spec: FunctionSpec)
    requires Roomy(spec)
    ensures CountInv(h, Init(spec)) && |Init(spec).log.born.Keys| == 0
  {
  }

  lemma {:induction false} RunKeepsCount(h: Hashes, spec: FunctionSpec, acts: seq<Action>)
    requires Orderly(h, spec, acts)
    ensures CountInv(h, Run(h, spec, acts))
    ensures |Run(h, spec, acts).log.born.Keys| + (if Due(h, Run(h, spec, acts)) then 1 else 0)
      <= 1 + Causes(h, spec, acts)
  {
    if acts == [] {
      StartsInOrder(h, spec);
    } else {
      var m, a := Run(h, spec, acts[..|acts| - 1]), acts[|acts| - 1];
      RunKeepsCount(h, spec, acts[..|acts| - 1]);
      RecordsHold(h, spec, acts[..|acts| - 1]);
      StatusIsInSync(h, spec, acts[..|acts| - 1]);
      NextIsKept(h, m, a);
      if Next(h, m, a).log.born.Keys != m.log.born.Keys {
        OneMoreName(m.log.born.Keys, Next(h, m, a).log.born.Keys, m.store.next);
      }
    }
  }

  /** Main result: in every interleaving, with calls failing anywhere, there were never more builders than one plus
      the edits that concern the build, the builders deleted by others, and the new builders whose name was lost. */
  lemma BuildersAreCounted(h: Hashes, spec: FunctionSpec, acts: seq<Action>)
    requires Orderly(h, spec, acts)
    ensures |Run(h, spec, acts).log.born.Keys| <= 1 + Causes(h, spec, acts)
  {
    RunKeepsCount(h, spec, acts);
  }
}

/** What every run of the Function controller keeps about its servings: how many there are,
    and which build each of them was made from. */
module Rollout {
  import opened Api
  import opened FunctionLogic
  import opened BuilderHistory
  import opened Lifecycle

  // ---------- The local copy is a snapshot of the stored function ----------

  ghost predicate SnapshotInv(m: Machine) {
    !m.pc.Idle? ==>
      && m.pc.fn.version <= m.store.fn.version
      && (m.pc.fn.version == m.store.fn.version ==> m.pc.fn.spec == m.store.fn.spec)
  }

  lemma NextKeepsSnapshotInv(h: Hashes, m: Machine, a: Action)
    requires SnapshotInv(m)
    ensures SnapshotInv(Next(h, m, a))
  {
  }

  // ---------- At most two servings ----------

  function AsSet(n: Option<Name>): set<Name> {
    if n.Some? then {n.value} else {}
  }

  ghost predicate ServingsInv(m: Machine) {
    && |m.store.servings.Keys| <= 2
    && (m.pc.WriteServingReset? ==> Ref(m.pc.fn.status.serving) == None)
    && (m.pc.ListServings? && m.pc.making ==> Ref(m.pc.fn.status.serving) == None)
    && (m.pc.CleanServings? && m.pc.making ==> m.store.servings.Keys - m.pc.doomed <= AsSet(Last(m.pc.fn.status)))
    && (m.pc.MakeServing? ==> m.store.servings.Keys <= AsSet(Last(m.pc.fn.status)))
  }

  lemma OneMoreThanOne(a: set<Name>, last: Option<Name>, n: Name)
    requires a <= AsSet(last)
    ensures |a + {n}| <= 2
  {
    SubsetIsNoLarger(a, AsSet(last));
    SubsetIsNoLarger(a + {n}, AsSet(last) + {n});
  }

  /** Servings are only ever added by the worker's Create. */
  lemma ServingsOnlyShrink(h: Hashes, m: Machine, a: Action)
    requires !(m.pc.MakeServing? && a.Make?)
    ensures Next(h, m, a).store.servings.Keys <= m.store.servings.Keys
  {
  }

  lemma OthersKeepServingsInv(h: Hashes, m: Machine, a: Action)
    requires ServingsInv(m) && !ServingSide(m.pc)
    ensures ServingsInv(Next(h, m, a))
  {
    ServingsOnlyShrink(h, m, a);
    SubsetIsNoLarger(Next(h, m, a).store.servings.Keys, m.store.servings.Keys);
  }

  lemma MakeAddsAtMostOne(h: Hashes, m: Machine, a: Action)
    requires m.pc.MakeServing? && a.Make?
    ensures var m' := Next(h, m, a);
      && m'.pc.WriteServingMade?
      && m'.store.servings.Keys <= m.store.servings.Keys + {m.store.next}
  {
  }

  lemma MakingKeepsServingsInv(h: Hashes, m: Machine, a: Action)
    requires ServingsInv(m) && m.pc.MakeServing? && a.Make?
    ensures ServingsInv(Next(h, m, a))
  {
    MakeAddsAtMostOne(h, m, a);
    OneMoreThanOne(m.store.servings.Keys, Last(m.pc.fn.status), m.store.next);
    SubsetIsNoLarger(Next(h, m, a).store.servings.Keys, m.store.servings.Keys + {m.store.next});
  }

  lemma NextKeepsServingsInv(h: Hashes, m: Machine, a: Action)
    requires ServingsInv(m)
    ensures ServingsInv(Next(h, m, a))
  {
    if m.pc.MakeServing? && a.Make? {
      MakingKeepsServingsInv(h, m, a);
    } else if !ServingSide(m.pc) {
      OthersKeepServingsInv(h, m, a);
    } else {
      ServingsOnlyShrink(h, m, a);
      SubsetIsNoLarger(Next(h, m, a).store.servings.Keys, m.store.servings.Keys);
      ServingCallKeepsCleaning(h, m, a);
    }
  }

  /** Cleaning leaves no serving but the last successful one to those that go on to create one. */
  lemma ListingKeepsCleaning(h: Hashes, m: Machine, a: Action)
    requires ServingsInv(m) && (m.pc.ListServings? || m.pc.CleanServings?)
    ensures |ServingCall(h, m, a).store.servings.Keys| <= 2 ==> ServingsInv(ServingCall(h, m, a))
  {
  }

  lemma ServingCallKeepsCleaning(h: Hashes, m: Machine, a: Action)
    requires ServingsInv(m) && ServingSide(m.pc) && !(m.pc.MakeServing? && a.Make?)
    ensures |ServingCall(h, m, a).store.servings.Keys| <= 2 ==> ServingsInv(ServingCall(h, m, a))
  {
    if m.pc.ListServings? || m.pc.CleanServings? {
      ListingKeepsCleaning(h, m, a);
    }
  }

  /** Main result: at every moment of every run there are at most two servings, and while a new one is
      about to be created at most the last successful one is left. */
  lemma {:induction false} AtMostTwoServings(h: Hashes, spec: FunctionSpec, acts: seq<Action>)
    ensures ServingsInv(Run(h, spec, acts))
    ensures |Run(h, spec, acts).store.servings.Keys| <= 2
  {
    if acts != [] {
      AtMostTwoServings(h, spec, acts[..|acts| - 1]);
      NextKeepsServingsInv(h, Run(h, spec, acts[..|acts| - 1]), acts[|acts| - 1]);
    }
  }

  // ---------- Every serving comes from the build it should come from ----------

  predicate SameBuild(a: BuilderSpec, b: BuilderSpec) {
    a.(cancelled := false) == b.(cancelled := false)
  }

  /** The history is exact: every builder carries the specification it was born with and,
      once it succeeded, the output that was noted then. */
  ghost predicate Exact(bs: map<Name, Builder>, log: Log, next: Name) {
    && (forall n :: n in bs ==> n in log.born && SameBuild(bs[n].spec, log.born[n]) && bs[n].status.state != Skipped)
    && (forall n :: n in bs && bs[n].status.state == Succeeded ==>
          n in log.outcome && log.outcome[n] == bs[n].status.output)
    && (forall n :: n in log.born ==> n < next)
    && (forall n :: n in log.outcome ==> n in log.born)
  }

  ghost predicate LogInv(m: Machine) {
    Exact(m.store.builders, m.log, m.store.next)
  }

  /** What is recorded about the build is true of the builder it names. */
  ghost predicate Truthful(h: Hashes, log: Log, st: FunctionStatus) {
    st.build.Some? ==>
      var c := st.build.value;
      && (c.ref.Some? ==> c.ref.value in log.born && c.hash == Some(BuilderHash(h, log.born[c.ref.value])))
      && (c.state == Succeeded ==>
            && c.ref.Some?
            && c.ref.value in log.outcome
            && (log.outcome[c.ref.value].Some? ==> st.revision == log.outcome[c.ref.value]))
      && (c.state == Skipped ==> c.ref.None?)
  }

  function CurrentHash(h: Hashes, f: Function): Option<int> {
    Some(BuilderHash(h, CreateBuilderSpec(f.spec)))
  }

  /** The recorded build belongs to the build specification of this local copy. */
  predicate BuildCurrent(h: Hashes, f: Function) {
    && f.status.build.Some?
    && f.status.build.value.hash == CurrentHash(h, f)
    && (f.status.build.value.ref.None? ==> f.spec.build.None?)
  }

  predicate BuildOver(st: FunctionStatus) {
    st.build.Some? && st.build.value.state in {Succeeded, Skipped}
  }

  ghost predicate RecordInv(h: Hashes, m: Machine) {
    && Truthful(h, m.log, m.store.fn.status)
    && (!m.pc.Idle? ==> Truthful(h, m.log, m.pc.fn.status))
    && (m.pc.TrackBuilder? || m.pc.WriteTracked? ==> BuildCurrent(h, m.pc.fn))
    && ((m.pc.ListToPrune? || m.pc.Prune?) && !m.pc.making ==> BuildCurrent(h, m.pc.fn))
    && (Resetting(m.pc) ==>
          m.pc.fn.status.build.Some? && m.pc.fn.status.build.value.state == NoState && m.pc.fn.status.build.value.ref.None?)
    && (m.pc.WriteMade? || ServingSide(m.pc) ==>
          m.pc.fn.status.build.Some? && (BuildOver(m.pc.fn.status) ==> BuildCurrent(h, m.pc.fn)))
    && (MakingServing(m.pc) || m.pc.WriteServingReset? ==> BuildOver(m.pc.fn.status))
    && (MakingServing(m.pc) ==>
          m.pc.fn.version <= m.store.fn.version && (Current(m, m.pc.fn) ==> m.store.fn == m.pc.fn))
  }

  predicate Resetting(pc: Pc) {
    || pc.WriteReset? || pc.ListToCancel? || pc.Cancel? || pc.MakeBuilder?
    || ((pc.ListToPrune? || pc.Prune?) && pc.making)
  }

  predicate MakingServing(pc: Pc) {
    ((pc.ListServings? || pc.CleanServings?) && pc.making) || pc.MakeServing?
  }

  ghost predicate LogGrows(log: Log, log': Log) {
    forall n :: n in log.born ==> n in log'.born && log'.born[n] == log.born[n]
  }

  lemma OthersKeepLogInv(m: Machine, a: Action)
    requires LogInv(m)
    ensures LogInv(OthersAct(m, a)) && LogGrows(m.log, OthersAct(m, a).log)
  {
  }

  lemma ExactWithOneMore(bs: map<Name, Builder>, log: Log, next: Name, b: Builder)
    requires Exact(bs, log, next) && b.status == EMPTY_BUILDER_STATUS
    ensures Exact(bs[next := b], log.(born := log.born[next := b.spec]), next + 1)
    ensures LogGrows(log, log.(born := log.born[next := b.spec]))
  {
  }

  lemma ExactWithOneCancelled(bs: map<Name, Builder>, log: Log, next: Name, n: Name)
    requires Exact(bs, log, next) && n in bs
    ensures Exact(bs[n := Cancelled(bs[n])], log, next)
  {
  }

  lemma BuilderCallKeepsLogInv(h: Hashes, m: Machine, a: Action)
    requires LogInv(m)
    ensures LogInv(BuilderCall(h, m, a)) && LogGrows(m.log, BuilderCall(h, m, a).log)
  {
    if m.pc.Cancel? && a.Touch? {
      if a.name in m.store.builders {
        ExactWithOneCancelled(m.store.builders, m.log, m.store.next, a.name);
      }
    } else if m.pc.MakeBuilder? && a.Make? {
      ExactWithOneMore(m.store.builders, m.log, m.store.next,
        Builder(CreateBuilderSpec(m.pc.fn.spec), a.at, EMPTY_BUILDER_STATUS, 0));
    } else if !(m.pc.Prune? && a.Touch?) {
      BuilderCallFrame(h, m, a);
    }
  }

  lemma BuilderCallFrame(h: Hashes, m: Machine, a: Action)
    requires !(a.Touch? && (m.pc.Cancel? || m.pc.Prune?)) && !(a.Make? && m.pc.MakeBuilder?)
    ensures var m' := BuilderCall(h, m, a);
      m'.store.builders == m.store.builders && m'.log == m.log && m'.store.next == m.store.next
  {
  }

  lemma ServingCallFrame(h: Hashes, m: Machine, a: Action)
    ensures var m' := ServingCall(h, m, a);
      m'.store.builders == m.store.builders && m'.log.born == m.log.born && m'.log.outcome == m.log.outcome
      && m'.store.next in {m.store.next, m.store.next + 1}
  {
  }

  lemma ServingCallKeepsLogInv(h: Hashes, m: Machine, a: Action)
    requires LogInv(m)
    ensures LogInv(ServingCall(h, m, a)) && LogGrows(m.log, ServingCall(h, m, a).log)
  {
    ServingCallFrame(h, m, a);
  }

  lemma NextKeepsLogInv(h: Hashes, m: Machine, a: Action)
    requires LogInv(m)
    ensures LogInv(Next(h, m, a)) && LogGrows(m.log, Next(h, m, a).log)
  {
    OthersKeepLogInv(m, a);
    if !a.Fail? && !m.pc.Idle? {
      BuilderCallKeepsLogInv(h, m, a);
      ServingCallKeepsLogInv(h, m, a);
    }
  }

  ghost predicate OutcomeInv(m: Machine) {
    forall n :: n in m.log.outcome && n in m.store.builders ==> m.store.builders[n].status.state == Succeeded
  }

  /** The worker leaves statuses and outcomes alone; it may delete a builder and adds only new names. */
  lemma WorkerKeepsStatuses(h: Hashes, m: Machine, a: Action)
    requires LogInv(m)
    ensures var m' := BuilderCall(h, m, a);
      && m'.log.outcome == m.log.outcome
      && forall n :: n in m'.store.builders && n in m.log.born ==>
           n in m.store.builders && m'.store.builders[n].status == m.store.builders[n].status
  {
    if !(a.Touch? && (m.pc.Cancel? || m.pc.Prune?)) && !(a.Make? && m.pc.MakeBuilder?) {
      BuilderCallFrame(h, m, a);
    }
  }

  lemma OthersKeepOutcomeInv(m: Machine, a: Action)
    requires LogInv(m) && OutcomeInv(m)
    ensures OutcomeInv(OthersAct(m, a))
    ensures forall n :: n in m.log.outcome ==>
      n in OthersAct(m, a).log.outcome && OthersAct(m, a).log.outcome[n] == m.log.outcome[n]
  {
  }

  lemma NextKeepsOutcomeInv(h: Hashes, m: Machine, a: Action)
    requires LogInv(m) && OutcomeInv(m)
    ensures OutcomeInv(Next(h, m, a))
    ensures forall n :: n in m.log.outcome ==>
      n in Next(h, m, a).log.outcome && Next(h, m, a).log.outcome[n] == m.log.outcome[n]
  {
    if a.Edit? || a.BuilderMoves? || a.BuilderGone? || a.ServingMoves? || a.ServingGone? {
      OthersKeepOutcomeInv(m, a);
    } else if !a.Fail? && !m.pc.Idle? {
      WorkerKeepsStatuses(h, m, a);
      ServingCallFrame(h, m, a);
    }
  }

  lemma TruthfulStays(h: Hashes, log: Log, log': Log, st: FunctionStatus)
    requires Truthful(h, log, st)
    requires forall n :: n in log.born ==> n in log'.born && log'.born[n] == log.born[n]
    requires forall n :: n in log.outcome ==> n in log'.outcome && log'.outcome[n] == log.outcome[n]
    ensures Truthful(h, log', st)
  {
  }

  lemma DecidingKeepsRecordInv(h: Hashes, m: Machine, a: Action)
    requires LogInv(m) && SnapshotInv(m) && RecordInv(h, m)
    requires m.pc.DecideBuilder?
    ensures RecordInv(h, BuilderCall(h, m, a))
  {
  }

  lemma RecordedBuildIsTruthful(h: Hashes, bs: map<Name, Builder>, log: Log, next: Name, st: FunctionStatus)
    requires Exact(bs, log, next) && Truthful(h, log, st)
    requires Ref(st.build).Some? && Ref(st.build).value in bs
    ensures Truthful(h, log, RecordBuild(st, bs[Ref(st.build).value].status))
    ensures RecordBuild(st, bs[Ref(st.build).value].status).build.value.ref == st.build.value.ref
    ensures RecordBuild(st, bs[Ref(st.build).value].status).build.value.hash == st.build.value.hash
  {
  }

  /** Where following a builder may lead the worker. */
  lemma TrackingLeads(h: Hashes, m: Machine, a: Action)
    requires m.pc.TrackBuilder?
    ensures var f, m' := m.pc.fn, BuilderCall(h, m, a);
      || m' == m
      || m' == m.(pc := Idle)
      || m' == m.(pc := DecideServing(f))
      || m' == m.(pc := ListToPrune(f, false))
      || (Ref(f.status.build).Some? && Ref(f.status.build).value in m.store.builders
          && m' == m.(pc := WriteTracked(f.(status :=
               RecordBuild(f.status, m.store.builders[Ref(f.status.build).value].status)))))
  {
  }

  lemma TrackingKeepsRecordInv(h: Hashes, m: Machine, a: Action)
    requires LogInv(m) && SnapshotInv(m) && RecordInv(h, m)
    requires m.pc.TrackBuilder?
    ensures RecordInv(h, BuilderCall(h, m, a))
  {
    TrackingLeads(h, m, a);
    if BuilderCall(h, m, a).pc.WriteTracked? {
      RecordedBuildIsTruthful(h, m.store.builders, m.log, m.store.next, m.pc.fn.status);
    }
  }

  lemma WritingKeepsRecordInv(h: Hashes, m: Machine, a: Action)
    requires LogInv(m) && SnapshotInv(m) && RecordInv(h, m)
    requires m.pc.WriteTracked? || m.pc.WriteReset? || m.pc.WriteMade?
    ensures RecordInv(h, BuilderCall(h, m, a))
  {
  }

  lemma ListingKeepsRecordInv(h: Hashes, m: Machine, a: Action)
    requires LogInv(m) && SnapshotInv(m) && RecordInv(h, m)
    requires m.pc.ListToCancel? || m.pc.Cancel? || m.pc.ListToPrune? || m.pc.Prune?
    ensures RecordInv(h, BuilderCall(h, m, a))
  {
    if m.pc.ListToCancel? || m.pc.Cancel? {
      CancellingKeepsRecordInv(h, m, a);
    } else {
      PruningKeepsRecordInv(h, m, a);
    }
  }

  lemma CancellingKeepsRecordInv(h: Hashes, m: Machine, a: Action)
    requires SnapshotInv(m) && RecordInv(h, m) && (m.pc.ListToCancel? || m.pc.Cancel?)
    ensures RecordInv(h, BuilderCall(h, m, a))
  {
  }

  lemma PruningKeepsRecordInv(h: Hashes, m: Machine, a: Action)
    requires SnapshotInv(m) && RecordInv(h, m) && (m.pc.ListToPrune? || m.pc.Prune?)
    ensures RecordInv(h, BuilderCall(h, m, a))
  {
  }

  lemma MakingLeads(h: Hashes, m: Machine, a: Action)
    requires m.pc.MakeBuilder?
    ensures var m' := BuilderCall(h, m, a);
      || m' == m
      || (m.pc.fn.spec.build.None? && m' == m.(pc := WriteMade(m.pc.fn.(status := SkipBuild(h, m.pc.fn.status)))))
      || (m.pc.fn.spec.build.Some? && a.Make? && m' == Made(h, m, a.at))
  {
  }

  lemma SkippingKeepsRecordInv(h: Hashes, m: Machine)
    requires LogInv(m) && RecordInv(h, m) && m.pc.MakeBuilder? && m.pc.fn.spec.build.None?
    ensures RecordInv(h, m.(pc := WriteMade(m.pc.fn.(status := SkipBuild(h, m.pc.fn.status)))))
  {
  }

  lemma MadeKeepsRecordInv(h: Hashes, m: Machine, at: int)
    requires LogInv(m) && RecordInv(h, m) && m.pc.MakeBuilder? && m.pc.fn.spec.build.Some?
    ensures RecordInv(h, Made(h, m, at))
  {
    TruthfulStays(h, m.log, Made(h, m, at).log, m.store.fn.status);
  }

  lemma MakingKeepsRecordInv(h: Hashes, m: Machine, a: Action)
    requires LogInv(m) && SnapshotInv(m) && RecordInv(h, m)
    requires m.pc.MakeBuilder?
    ensures RecordInv(h, BuilderCall(h, m, a))
  {
    MakingLeads(h, m, a);
    if m.pc.fn.spec.build.None? {
      SkippingKeepsRecordInv(h, m);
    } else if a.Make? {
      MadeKeepsRecordInv(h, m, a.at);
    }
  }

  lemma ServingLookUpKeepsRecordInv(h: Hashes, m: Machine, a: Action)
    requires LogInv(m) && SnapshotInv(m) && RecordInv(h, m)
    requires m.pc.DecideServing? || m.pc.TrackServing?
    ensures RecordInv(h, ServingCall(h, m, a))
  {
  }

  lemma ServingWriteKeepsRecordInv(h: Hashes, m: Machine, a: Action)
    requires LogInv(m) && SnapshotInv(m) && RecordInv(h, m)
    requires m.pc.WriteServingTracked? || m.pc.WriteServingReset? || m.pc.WriteServingMade?
    ensures RecordInv(h, ServingCall(h, m, a))
  {
  }

  lemma ServingListKeepsRecordInv(h: Hashes, m: Machine, a: Action)
    requires LogInv(m) && SnapshotInv(m) && RecordInv(h, m)
    requires m.pc.ListServings? || m.pc.CleanServings? || m.pc.MakeServing?
    ensures RecordInv(h, ServingCall(h, m, a))
  {
    if m.pc.MakeServing? {
      MakingServingKeepsRecordInv(h, m, a);
    } else {
      CleaningKeepsRecordInv(h, m, a);
    }
  }

  lemma CleaningKeepsRecordInv(h: Hashes, m: Machine, a: Action)
    requires SnapshotInv(m) && RecordInv(h, m) && (m.pc.ListServings? || m.pc.CleanServings?)
    ensures RecordInv(h, ServingCall(h, m, a))
  {
  }

  lemma MakingServingKeepsRecordInv(h: Hashes, m: Machine, a: Action)
    requires SnapshotInv(m) && RecordInv(h, m) && m.pc.MakeServing?
    ensures RecordInv(h, ServingCall(h, m, a))
  {
  }

  lemma ServingCallKeepsRecordInv(h: Hashes, m: Machine, a: Action)
    requires LogInv(m) && SnapshotInv(m) && RecordInv(h, m)
    requires ServingSide(m.pc)
    ensures RecordInv(h, ServingCall(h, m, a))
  {
    if m.pc.DecideServing? || m.pc.TrackServing? {
      ServingLookUpKeepsRecordInv(h, m, a);
    } else if m.pc.ListServings? || m.pc.CleanServings? || m.pc.MakeServing? {
      ServingListKeepsRecordInv(h, m, a);
    } else {
      ServingWriteKeepsRecordInv(h, m, a);
    }
  }

  lemma OthersKeepRecordInv(h: Hashes, m: Machine, a: Action)
    requires LogInv(m) && OutcomeInv(m) && RecordInv(h, m)
    requires a.Edit? || a.BuilderMoves? || a.BuilderGone? || a.ServingMoves? || a.ServingGone?
    ensures RecordInv(h, OthersAct(m, a))
  {
    var m' := OthersAct(m, a);
    TruthfulStays(h, m.log, m'.log, m.store.fn.status);
    if !m.pc.Idle? {
      TruthfulStays(h, m.log, m'.log, m.pc.fn.status);
    }
  }

  lemma NextKeepsRecordInv(h: Hashes, m: Machine, a: Action)
    requires LogInv(m) && OutcomeInv(m) && SnapshotInv(m) && RecordInv(h, m)
    ensures RecordInv(h, Next(h, m, a))
  {
    if a.Edit? || a.BuilderMoves? || a.BuilderGone? || a.ServingMoves? || a.ServingGone? {
      OthersKeepRecordInv(h, m, a);
    } else if !a.Fail? && !m.pc.Idle? {
      match m.pc
      case DecideBuilder(_) => DecidingKeepsRecordInv(h, m, a);
      case TrackBuilder(_) => TrackingKeepsRecordInv(h, m, a);
      case WriteTracked(_) => WritingKeepsRecordInv(h, m, a);
      case WriteReset(_) => WritingKeepsRecordInv(h, m, a);
      case WriteMade(_) => WritingKeepsRecordInv(h, m, a);
      case ListToCancel(_) => ListingKeepsRecordInv(h, m, a);
      case Cancel(_, _, _) => ListingKeepsRecordInv(h, m, a);
      case ListToPrune(_, _) => ListingKeepsRecordInv(h, m, a);
      case Prune(_, _, _) => ListingKeepsRecordInv(h, m, a);
      case MakeBuilder(_) => MakingKeepsRecordInv(h, m, a);
      case _ => ServingCallKeepsRecordInv(h, m, a);
    }
  }

  lemma {:induction false} RecordsHold(h: Hashes, spec: FunctionSpec, acts: seq<Action>)
    ensures var m := Run(h, spec, acts); LogInv(m) && OutcomeInv(m) && SnapshotInv(m) && RecordInv(h, m)
  {
    if acts != [] {
      var m, a := Run(h, spec, acts[..|acts| - 1]), acts[|acts| - 1];
      RecordsHold(h, spec, acts[..|acts| - 1]);
      NextKeepsLogInv(h, m, a);
      NextKeepsOutcomeInv(h, m, a);
      NextKeepsSnapshotInv(h, m, a);
      NextKeepsRecordInv(h, m, a);
    }
  }

  /** The build that local copy `f` rests on is over, belongs to f's build specification, and is either
      skipped for want of one or a builder that was created from it and succeeded. */
  ghost predicate RestsOnItsBuild(h: Hashes, log: Log, f: Function) {
    && f.status.build.Some?
    && var c := f.status.build.value;
      && c.hash == CurrentHash(h, f)
      && (c.state == Skipped ==> f.spec.build.None?)
      && (c.state != Skipped ==>
            && c.state == Succeeded
            && c.ref.Some?
            && c.ref.value in log.born
            && c.ref.value in log.outcome
            && BuilderHash(h, log.born[c.ref.value]) == BuilderHash(h, CreateBuilderSpec(f.spec)))
  }

  lemma OnlyMakeAddsServing(h: Hashes, m: Machine, a: Action, n: Name)
    requires n !in m.store.servings && n in Next(h, m, a).store.servings
    ensures m.pc.MakeServing? && Next(h, m, a).store.servings[n].spec == CreateServingSpec(m.pc.fn)
    ensures m.pc.fn.spec.serving.Some?
  {
  }

  lemma MakingServingRests(h: Hashes, m: Machine)
    requires RecordInv(h, m) && m.pc.MakeServing?
    ensures RestsOnItsBuild(h, m.log, m.pc.fn)
    ensures Current(m, m.pc.fn) ==> m.store.fn == m.pc.fn
    ensures m.pc.fn.status.build.value.state == Succeeded ==>
      var reported := m.log.outcome[m.pc.fn.status.build.value.ref.value];
      reported.Some? ==> m.pc.fn.status.revision == reported
  {
  }

  /** Main result: whenever a run creates a serving, its attempt's last status write stored a function whose
      build was over and current, and a digest reported by exactly that builder is the digest of its image. */
  lemma ServingMatchesItsBuild(h: Hashes, spec: FunctionSpec, acts: seq<Action>, a: Action, n: Name)
    requires n !in Run(h, spec, acts).store.servings
    requires n in Next(h, Run(h, spec, acts), a).store.servings
    ensures var m, s := Run(h, spec, acts), Next(h, Run(h, spec, acts), a).store.servings[n];
      && m.pc.MakeServing?
      && var f := m.pc.fn;
        && (Current(m, f) ==> m.store.fn == f)
        && RestsOnItsBuild(h, m.log, f)
        && f.spec.serving.Some?
        && s.spec == ServingSpec(f.spec.version, s.spec.image, f.spec.credentials, f.spec.serving.value)
        && s.spec.image == ServingImage(f.spec.image, f.status.revision)
        && (f.status.build.value.state == Succeeded ==>
              var reported := m.log.outcome[f.status.build.value.ref.value];
              && (reported.Some? && reported.value != "" ==> s.spec.image == Repo(f.spec.image) + "@" + reported.value)
              && (reported == Some("") ==> s.spec.image == f.spec.image))
  {
    RecordsHold(h, spec, acts);
    var m := Run(h, spec, acts);
    OnlyMakeAddsServing(h, m, a, n);
    MakingServingRests(h, m);
  }

  lemma OnlyMakeAddsBuilder(h: Hashes, m: Machine, a: Action, n: Name)
    requires n !in m.store.builders && n in BuilderCall(h, m, a).store.builders
    ensures m.pc.MakeBuilder? && m.pc.fn.spec.build.Some?
    ensures BuilderCall(h, m, a).store.builders[n].spec == CreateBuilderSpec(m.pc.fn.spec)
    ensures BuilderCall(h, m, a).store.builders[n].status == EMPTY_BUILDER_STATUS
  {
  }

  /** Whenever a run creates a builder, it describes the build of the worker's copy, and no other builder is unfinished. */
  lemma BuilderMatchesItsFunction(h: Hashes, spec: FunctionSpec, acts: seq<Action>, a: Action, n: Name)
    ensures var m, m' := Run(h, spec, acts), Next(h, Run(h, spec, acts), a);
      n !in m.store.builders && n in m'.store.builders ==>
        && m.pc.MakeBuilder?
        && var f, b := m.pc.fn, m'.store.builders[n];
          && f.spec.build == Some(b.spec.build) && b.spec.image == f.spec.image && b.spec.credentials == f.spec.credentials
          && !b.spec.cancelled && b.status == EMPTY_BUILDER_STATUS
          && (Current(m, f) ==> m.store.fn.spec == f.spec)
          && Unfinished(m.store.builders) == {}
  {
    RecordsHold(h, spec, acts);
    SingleBuild(h, spec, acts);
    var m := Run(h, spec, acts);
    ServingCallFrame(h, m, a);
    if n !in m.store.builders && n in Next(h, m, a).store.builders {
      OnlyMakeAddsBuilder(h, m, a, n);
    }
  }
}

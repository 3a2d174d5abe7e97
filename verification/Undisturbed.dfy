/** The two views of an attempt agree: letting the worker of the step machine run alone, every call
    succeeding, takes the store where the function `Attempt` says. */
module Undisturbed {
  import opened Api
  import opened FunctionLogic
  import opened BuilderHistory
  import L = Lifecycle
  import C = FunctionController

  /** A call of the worker itself that does not fail. */
  predicate Own(a: L.Action) {
    match a
    case Fetch => true
    case LookUp(available) => available
    case Write => true
    case List(_) => true
    case Touch(_) => true
    case Finish => true
    case Make(_) => true
    case _ => false
  }

  ghost function Go(h: Hashes, m: L.Machine, acts: seq<L.Action>): L.Machine
    decreases |acts|
  {
    if acts == [] then m else Go(h, L.Next(h, m, acts[0]), acts[1..])
  }

  /** A step of the worker itself that does not fail; in particular a write of it is accepted. */
  predicate Succeeds(m: L.Machine, a: L.Action) {
    Own(a) && (a.Write? && !m.pc.Idle? ==> L.Current(m, m.pc.fn))
  }

  ghost predicate AllSucceed(h: Hashes, m: L.Machine, acts: seq<L.Action>)
    decreases |acts|
  {
    acts != [] ==> Succeeds(m, acts[0]) && AllSucceed(h, L.Next(h, m, acts[0]), acts[1..])
  }

  /** By its own successful calls alone the worker comes from m to m'. */
  ghost predicate Reaches(h: Hashes, m: L.Machine, m': L.Machine) {
    exists acts :: AllSucceed(h, m, acts) && Go(h, m, acts) == m'
  }

  lemma ReachesNext(h: Hashes, m: L.Machine, a: L.Action, m': L.Machine)
    requires Succeeds(m, a) && Reaches(h, L.Next(h, m, a), m')
    ensures Reaches(h, m, m')
  {
    var acts :| AllSucceed(h, L.Next(h, m, a), acts) && Go(h, L.Next(h, m, a), acts) == m';
    assert ([a] + acts)[1..] == acts;
    assert AllSucceed(h, m, [a] + acts) && Go(h, m, [a] + acts) == m';
  }

  lemma ReachesItself(h: Hashes, m: L.Machine)
    ensures Reaches(h, m, m)
  {
    assert AllSucceed(h, m, []) && Go(h, m, []) == m;
  }

  lemma {:induction false} GoOn(h: Hashes, m: L.Machine, a: seq<L.Action>, b: seq<L.Action>)
    ensures Go(h, m, a + b) == Go(h, Go(h, m, a), b)
    ensures AllSucceed(h, m, a) && AllSucceed(h, Go(h, m, a), b) ==> AllSucceed(h, m, a + b)
    decreases |a|
  {
    if a == [] {
      assert a + b == b;
    } else {
      assert (a + b)[1..] == a[1..] + b;
      GoOn(h, L.Next(h, m, a[0]), a[1..], b);
    }
  }

  lemma ReachesOn(h: Hashes, m: L.Machine, m': L.Machine, m'': L.Machine)
    requires Reaches(h, m, m') && Reaches(h, m', m'')
    ensures Reaches(h, m, m'')
  {
    var a :| AllSucceed(h, m, a) && Go(h, m, a) == m';
    var b :| AllSucceed(h, m', b) && Go(h, m', b) == m'';
    GoOn(h, m, a, b);
  }

  lemma Steps(h: Hashes, m: L.Machine, a: L.Action, next: L.Machine)
    requires Succeeds(m, a) && L.Next(h, m, a) == next
    ensures Reaches(h, m, next)
  {
    ReachesItself(h, next);
    ReachesNext(h, m, a, next);
  }

  // ---------- The loops over listed objects ----------

  function CancelSome(bs: map<Name, Builder>, todo: set<Name>): map<Name, Builder> {
    map n | n in bs :: if n in todo then Cancelled(bs[n]) else bs[n]
  }

  lemma {:induction false} CancelLoop(h: Hashes, m: L.Machine)
    requires m.pc.Cancel?
    requires forall n :: n in m.pc.todo ==> n in m.store.builders && m.store.builders[n].version == m.pc.todo[n]
    ensures Reaches(h, m, m.(
      store := m.store.(builders := CancelSome(m.store.builders, m.pc.todo.Keys)),
      pc := L.Cancel(m.pc.fn, map[], m.pc.waiting || m.pc.todo != map[])))
    decreases |m.pc.todo|
  {
    if m.pc.todo == map[] {
      assert CancelSome(m.store.builders, m.pc.todo.Keys) == m.store.builders;
      ReachesItself(h, m);
    } else {
      var n :| n in m.pc.todo;
      var m' := L.Next(h, m, L.Touch(n));
      var rest := m.pc.todo - {n};
      CancelOne(h, m, n);
      assert |rest| < |m.pc.todo| by {
        assert m.pc.todo.Keys == rest.Keys + {n};
      }
      CancelLoop(h, m');
      assert CancelSome(m'.store.builders, rest.Keys) == CancelSome(m.store.builders, m.pc.todo.Keys);
      ReachesNext(h, m, L.Touch(n), m.(
        store := m.store.(builders := CancelSome(m.store.builders, m.pc.todo.Keys)),
        pc := L.Cancel(m.pc.fn, map[], true)));
    }
  }

  lemma CancelOne(h: Hashes, m: L.Machine, n: Name)
    requires m.pc.Cancel? && n in m.pc.todo && n in m.store.builders && m.store.builders[n].version == m.pc.todo[n]
    ensures L.Next(h, m, L.Touch(n)) == m.(
      store := m.store.(builders := m.store.builders[n := Cancelled(m.store.builders[n])]),
      pc := L.Cancel(m.pc.fn, m.pc.todo - {n}, true))
  {
  }

  lemma {:induction false} PruneLoop(h: Hashes, m: L.Machine)
    requires m.pc.Prune?
    ensures Reaches(h, m, m.(
      store := m.store.(builders := m.store.builders - m.pc.doomed),
      pc := L.Prune(m.pc.fn, {}, m.pc.making)))
    decreases m.pc.doomed
  {
    if m.pc.doomed == {} {
      assert m.store.builders - m.pc.doomed == m.store.builders;
      ReachesItself(h, m);
    } else {
      var n :| n in m.pc.doomed;
      var m' := L.Next(h, m, L.Touch(n));
      PruneLoop(h, m');
      assert m'.store.builders - (m.pc.doomed - {n}) == m.store.builders - m.pc.doomed;
      ReachesNext(h, m, L.Touch(n), m.(
        store := m.store.(builders := m.store.builders - m.pc.doomed),
        pc := L.Prune(m.pc.fn, {}, m.pc.making)));
    }
  }

  lemma {:induction false} CleanLoop(h: Hashes, m: L.Machine)
    requires m.pc.CleanServings?
    ensures Reaches(h, m, m.(
      store := m.store.(servings := m.store.servings - m.pc.doomed),
      pc := L.CleanServings(m.pc.fn, {}, m.pc.making)))
    decreases m.pc.doomed
  {
    if m.pc.doomed == {} {
      assert m.store.servings - m.pc.doomed == m.store.servings;
      ReachesItself(h, m);
    } else {
      var n :| n in m.pc.doomed;
      var m' := L.Next(h, m, L.Touch(n));
      CleanLoop(h, m');
      assert m'.store.servings - (m.pc.doomed - {n}) == m.store.servings - m.pc.doomed;
      ReachesNext(h, m, L.Touch(n), m.(
        store := m.store.(servings := m.store.servings - m.pc.doomed),
        pc := L.CleanServings(m.pc.fn, {}, m.pc.making)));
    }
  }

  // ---------- The builder part ----------

  lemma PruningLists(h: Hashes, m: L.Machine, kept: set<Name>)
    requires m.pc.ListToPrune? && LegalPrune(m.store.builders, kept, LimitsOf(m.pc.fn.spec))
    ensures Reaches(h, m, m.(pc := L.Prune(m.pc.fn, m.store.builders.Keys - kept, m.pc.making)))
  {
    Steps(h, m, L.List(kept), m.(pc := L.Prune(m.pc.fn, m.store.builders.Keys - kept, m.pc.making)));
  }

  lemma PruningEnds(h: Hashes, m: L.Machine)
    requires m.pc.Prune? && m.pc.doomed == {}
    ensures Reaches(h, m, m.(pc := if m.pc.making then L.MakeBuilder(m.pc.fn) else L.DecideServing(m.pc.fn)))
  {
    Steps(h, m, L.Finish, m.(pc := if m.pc.making then L.MakeBuilder(m.pc.fn) else L.DecideServing(m.pc.fn)));
  }

  lemma ReachesThrough(h: Hashes, m: L.Machine, m1: L.Machine, m2: L.Machine, m3: L.Machine)
    requires Reaches(h, m, m1) && Reaches(h, m1, m2) && Reaches(h, m2, m3)
    ensures Reaches(h, m, m3)
  {
    ReachesOn(h, m, m1, m2);
    ReachesOn(h, m, m2, m3);
  }

  lemma KeepingIsRestricting(bs: map<Name, Builder>, kept: set<Name>)
    ensures bs - (bs.Keys - kept) == Restrict(bs, kept)
  {
  }

  lemma PruningStage(h: Hashes, m: L.Machine, c: C.Choice)
    requires m.pc.ListToPrune? && m.pc.fn == m.store.fn && C.LegalChoice(m.store, c)
    ensures Reaches(h, m, m.(
      store := m.store.(builders := Restrict(m.store.builders, c.kept)),
      pc := if m.pc.making then L.MakeBuilder(m.pc.fn) else L.DecideServing(m.pc.fn)))
  {
    PruningLists(h, m, c.kept);
    KeepingIsRestricting(m.store.builders, c.kept);
    var m1 := m.(pc := L.Prune(m.pc.fn, m.store.builders.Keys - c.kept, m.pc.making));
    PruneLoop(h, m1);
    var m2 := m.(store := m.store.(builders := Restrict(m.store.builders, c.kept)),
                 pc := L.Prune(m.pc.fn, {}, m.pc.making));
    PruningEnds(h, m2);
    ReachesThrough(h, m, m1, m2, m2.(pc := if m.pc.making then L.MakeBuilder(m.pc.fn) else L.DecideServing(m.pc.fn)));
  }

  lemma BuildIsSkipped(h: Hashes, m: L.Machine, at: int)
    requires m.pc == L.MakeBuilder(m.store.fn) && m.store.fn.spec.build.None?
    ensures Reaches(h, m, m.(pc := L.WriteMade(m.store.fn.(status := SkipBuild(h, m.store.fn.status)))))
  {
    Steps(h, m, L.Make(at), m.(pc := L.WriteMade(m.store.fn.(status := SkipBuild(h, m.store.fn.status)))));
  }

  lemma BuilderIsMade(h: Hashes, m: L.Machine, at: int)
    requires m.pc == L.MakeBuilder(m.store.fn) && m.store.fn.spec.build.Some?
    ensures Reaches(h, m, L.Made(h, m, at))
  {
    Steps(h, m, L.Make(at), L.Made(h, m, at));
  }

  /** The machine after the pending status write. */
  function Stored(m: L.Machine, pc: L.Pc): L.Machine
    requires !m.pc.Idle?
  {
    m.(store := C.PutStatus(m.store, m.pc.fn.status), pc := pc)
  }

  function FnStored(m: L.Machine): Function
    requires !m.pc.Idle?
  {
    C.PutStatus(m.store, m.pc.fn.status).fn
  }

  lemma MadeIsWritten(h: Hashes, m: L.Machine)
    requires m.pc.WriteMade? && L.Current(m, m.pc.fn)
    ensures Reaches(h, m, Stored(m, L.DecideServing(FnStored(m))))
  {
    Steps(h, m, L.Write, Stored(m, L.DecideServing(FnStored(m))));
  }

  lemma MakingStage(h: Hashes, m: L.Machine, at: int) returns (m': L.Machine)
    requires m.pc == L.MakeBuilder(m.store.fn)
    ensures Reaches(h, m, m')
    ensures m'.store == C.NewBuilder(h, m.store, at) && m'.pc == L.DecideServing(m'.store.fn)
  {
    var m1;
    if m.store.fn.spec.build.None? {
      BuildIsSkipped(h, m, at);
      m1 := m.(pc := L.WriteMade(m.store.fn.(status := SkipBuild(h, m.store.fn.status))));
    } else {
      BuilderIsMade(h, m, at);
      m1 := L.Made(h, m, at);
    }
    MadeIsWritten(h, m1);
    m' := Stored(m1, L.DecideServing(FnStored(m1)));
    ReachesOn(h, m, m1, m');
  }

  /** The unfinished builders, each with the version that was listed. */
  function Listed(bs: map<Name, Builder>): map<Name, nat> {
    map n | n in Unfinished(bs) :: bs[n].version
  }

  lemma CancelLists(h: Hashes, m: L.Machine)
    requires m.pc.ListToCancel?
    ensures Reaches(h, m, m.(pc := L.Cancel(m.pc.fn, Listed(m.store.builders), false)))
  {
    Steps(h, m, L.List({}), m.(pc := L.Cancel(m.pc.fn, Listed(m.store.builders), false)));
  }

  lemma CancelsTheUnfinished(bs: map<Name, Builder>)
    ensures CancelSome(bs, Listed(bs).Keys) == C.CancelAll(bs)
    ensures Listed(bs) != map[] <==> Unfinished(bs) != {}
  {
    assert Listed(bs).Keys == Unfinished(bs);
  }

  lemma CancelEnds(h: Hashes, m: L.Machine)
    requires m.pc.Cancel? && m.pc.todo == map[]
    ensures Reaches(h, m, m.(pc := if m.pc.waiting then L.DecideServing(m.pc.fn) else L.ListToPrune(m.pc.fn, true)))
  {
    Steps(h, m, L.Finish, m.(pc := if m.pc.waiting then L.DecideServing(m.pc.fn) else L.ListToPrune(m.pc.fn, true)));
  }

  lemma CancelStage(h: Hashes, m: L.Machine)
    requires m.pc == L.ListToCancel(m.store.fn)
    ensures Reaches(h, m, m.(
      store := m.store.(builders := C.CancelAll(m.store.builders)),
      pc := if Unfinished(m.store.builders) != {} then L.DecideServing(m.store.fn) else L.ListToPrune(m.store.fn, true)))
  {
    CancelLists(h, m);
    CancelsTheUnfinished(m.store.builders);
    var m1 := m.(pc := L.Cancel(m.store.fn, Listed(m.store.builders), false));
    CancelLoop(h, m1);
    var waiting := Unfinished(m.store.builders) != {};
    var m2 := m.(store := m.store.(builders := C.CancelAll(m.store.builders)),
                 pc := L.Cancel(m.store.fn, map[], waiting));
    CancelEnds(h, m2);
    ReachesThrough(h, m, m1, m2,
      m2.(pc := if waiting then L.DecideServing(m.store.fn) else L.ListToPrune(m.store.fn, true)));
  }

  lemma PruneAndMake(h: Hashes, m: L.Machine, c: C.Choice) returns (m': L.Machine)
    requires m.pc == L.ListToPrune(m.store.fn, true) && LegalPrune(m.store.builders, c.kept, LimitsOf(m.store.fn.spec))
    ensures Reaches(h, m, m')
    ensures m'.store == C.NewBuilder(h, m.store.(builders := Restrict(m.store.builders, c.kept)), c.at)
    ensures m'.pc == L.DecideServing(m'.store.fn)
  {
    PruningStage(h, m, c);
    var pruned := m.(store := m.store.(builders := Restrict(m.store.builders, c.kept)), pc := L.MakeBuilder(m.store.fn));
    m' := MakingStage(h, pruned, c.at);
    ReachesOn(h, m, pruned, m');
  }

  lemma ResetIsWritten(h: Hashes, m: L.Machine)
    requires m.pc == L.WriteReset(m.store.fn.(status := ResetBuild(m.store.fn.status)))
    ensures Reaches(h, m, Stored(m, L.ListToCancel(FnStored(m))))
  {
    Steps(h, m, L.Write, Stored(m, L.ListToCancel(FnStored(m))));
  }

  lemma RebuildStage(h: Hashes, m: L.Machine, c: C.Choice) returns (m': L.Machine)
    requires m.pc == L.WriteReset(m.store.fn.(status := ResetBuild(m.store.fn.status)))
    requires C.LegalChoice(m.store, c)
    ensures Reaches(h, m, m')
    ensures m'.store == C.Rebuild(h, m.store, c) && m'.pc == L.DecideServing(m'.store.fn)
  {
    ResetIsWritten(h, m);
    var m1 := Stored(m, L.ListToCancel(FnStored(m)));
    CancelStage(h, m1);
    if Unfinished(m.store.builders) != {} {
      m' := m1.(store := m1.store.(builders := C.CancelAll(m.store.builders)), pc := L.DecideServing(m1.store.fn));
    } else {
      C.CancelsNothing(m.store.builders);
      var m2 := m1.(pc := L.ListToPrune(m1.store.fn, true));
      m' := PruneAndMake(h, m2, c);
      ReachesOn(h, m1, m2, m');
    }
    ReachesOn(h, m, m1, m');
  }

  /** Is there a builder to follow? */
  predicate Follows(s: Store) {
    var found := Find(s.builders, Ref(s.fn.status.build));
    Tracks(s.fn.status.build) && found.Found? && found.value.status.phase == BuildPhase
  }

  /** Where the look at the builder leads. */
  function AfterLook(s: Store): L.Pc {
    if !Follows(s) then L.DecideServing(s.fn)
    else
      var b := Find(s.builders, Ref(s.fn.status.build)).value.status;
      if BuildChanged(s.fn.status.build.value, b)
      then L.WriteTracked(s.fn.(status := RecordBuild(s.fn.status, b)))
      else L.ListToPrune(s.fn, false)
  }

  lemma LooksAtBuilder(h: Hashes, m: L.Machine)
    requires m.pc == L.TrackBuilder(m.store.fn)
    ensures Reaches(h, m, m.(pc := AfterLook(m.store)))
  {
    Steps(h, m, L.LookUp(true), m.(pc := AfterLook(m.store)));
  }

  lemma TrackedIsWritten(h: Hashes, m: L.Machine)
    requires m.pc.WriteTracked? && L.Current(m, m.pc.fn)
    ensures Reaches(h, m, Stored(m, L.ListToPrune(FnStored(m), false)))
  {
    Steps(h, m, L.Write, Stored(m, L.ListToPrune(FnStored(m), false)));
  }

  lemma FollowStage(h: Hashes, m: L.Machine, c: C.Choice) returns (m': L.Machine)
    requires m.pc == L.TrackBuilder(m.store.fn) && C.LegalChoice(m.store, c)
    ensures Reaches(h, m, m')
    ensures m'.store == C.FollowBuilder(m.store, c) && m'.pc == L.DecideServing(m'.store.fn)
  {
    LooksAtBuilder(h, m);
    var m1 := m.(pc := AfterLook(m.store));
    if !Follows(m.store) {
      m' := m1;
    } else {
      var m2 := m1;
      if m1.pc.WriteTracked? {
        TrackedIsWritten(h, m1);
        m2 := Stored(m1, L.ListToPrune(FnStored(m1), false));
        ReachesOn(h, m, m1, m2);
      }
      PruningStage(h, m2, c);
      m' := m2.(store := m2.store.(builders := Restrict(m2.store.builders, c.kept)), pc := L.DecideServing(m2.store.fn));
      ReachesOn(h, m, m2, m');
    }
  }

  /** Where the decision about a builder leads. */
  function AfterDeciding(h: Hashes, s: Store): L.Pc {
    if NeedBuilder(h, s.fn, Find(s.builders, Ref(s.fn.status.build)))
    then L.WriteReset(s.fn.(status := ResetBuild(s.fn.status))) else L.TrackBuilder(s.fn)
  }

  lemma DecidesOnBuilder(h: Hashes, m: L.Machine)
    requires m.pc == L.DecideBuilder(m.store.fn)
    ensures Reaches(h, m, m.(pc := AfterDeciding(h, m.store)))
  {
    Steps(h, m, L.LookUp(true), m.(pc := AfterDeciding(h, m.store)));
  }

  lemma BuilderStage(h: Hashes, m: L.Machine, c: C.Choice) returns (m': L.Machine)
    requires m.pc == L.DecideBuilder(m.store.fn) && C.LegalChoice(m.store, c)
    ensures Reaches(h, m, m')
    ensures m'.store == C.BuilderPart(h, m.store, c) && m'.pc == L.DecideServing(m'.store.fn)
  {
    DecidesOnBuilder(h, m);
    var m1 := m.(pc := AfterDeciding(h, m.store));
    if m1.pc.WriteReset? {
      m' := RebuildStage(h, m1, c);
    } else {
      m' := FollowStage(h, m1, c);
    }
    ReachesOn(h, m, m1, m');
  }

  // ---------- The serving part ----------

  lemma CleaningLists(h: Hashes, m: L.Machine)
    requires m.pc.ListServings?
    ensures Reaches(h, m, m.(
      pc := L.CleanServings(m.pc.fn, m.store.servings.Keys - Spared(m.pc.fn.status), m.pc.making)))
  {
    Steps(h, m, L.List({}), m.(
      pc := L.CleanServings(m.pc.fn, m.store.servings.Keys - Spared(m.pc.fn.status), m.pc.making)));
  }

  lemma CleaningEnds(h: Hashes, m: L.Machine)
    requires m.pc.CleanServings? && m.pc.doomed == {}
    ensures Reaches(h, m, m.(pc := if m.pc.making then L.MakeServing(m.pc.fn) else L.WriteServingTracked(m.pc.fn)))
  {
    Steps(h, m, L.Finish, m.(pc := if m.pc.making then L.MakeServing(m.pc.fn) else L.WriteServingTracked(m.pc.fn)));
  }

  lemma CleaningSpares(s: Store, st: FunctionStatus)
    ensures s.servings - (s.servings.Keys - Spared(st)) == C.CleanServings(s, st)
  {
  }

  lemma CleaningStage(h: Hashes, m: L.Machine)
    requires m.pc.ListServings?
    ensures Reaches(h, m, m.(
      store := m.store.(servings := C.CleanServings(m.store, m.pc.fn.status)),
      pc := if m.pc.making then L.MakeServing(m.pc.fn) else L.WriteServingTracked(m.pc.fn)))
  {
    CleaningLists(h, m);
    CleaningSpares(m.store, m.pc.fn.status);
    var m1 := m.(pc := L.CleanServings(m.pc.fn, m.store.servings.Keys - Spared(m.pc.fn.status), m.pc.making));
    CleanLoop(h, m1);
    var m2 := m.(store := m.store.(servings := C.CleanServings(m.store, m.pc.fn.status)),
                 pc := L.CleanServings(m.pc.fn, {}, m.pc.making));
    CleaningEnds(h, m2);
    ReachesThrough(h, m, m1, m2,
      m2.(pc := if m.pc.making then L.MakeServing(m.pc.fn) else L.WriteServingTracked(m.pc.fn)));
  }

  /** The machine once a serving has been created or skipped. */
  function ServingMadeBy(h: Hashes, m: L.Machine): L.Machine {
    var f, n := m.store.fn, m.store.next;
    if f.spec.serving.None? then m.(pc := L.WriteServingMade(f.(status := SkipServing(h, f.status))))
    else
      var spec := CreateServingSpec(f);
      m.(store := m.store.(servings := m.store.servings[n := Serving(spec, EMPTY_SERVING_STATUS, 0)], next := n + 1),
         pc := L.WriteServingMade(f.(status := ServingMade(h, f.status, n, spec))))
  }

  lemma ServingIsMade(h: Hashes, m: L.Machine)
    requires m.pc == L.MakeServing(m.store.fn)
    ensures Reaches(h, m, ServingMadeBy(h, m))
  {
    Steps(h, m, L.Make(0), ServingMadeBy(h, m));
  }

  lemma ServingMadeIsWritten(h: Hashes, m: L.Machine)
    requires m.pc.WriteServingMade? && L.Current(m, m.pc.fn)
    ensures Reaches(h, m, Stored(m, L.Idle))
  {
    Steps(h, m, L.Write, Stored(m, L.Idle));
  }

  lemma MakingServingStage(h: Hashes, m: L.Machine)
    requires m.pc == L.MakeServing(m.store.fn)
    ensures Reaches(h, m, m.(store := C.NewServing(h, m.store), pc := L.Idle))
  {
    ServingIsMade(h, m);
    ServingMadeIsWritten(h, ServingMadeBy(h, m));
    ReachesOn(h, m, ServingMadeBy(h, m), Stored(ServingMadeBy(h, m), L.Idle));
  }

  lemma ServingResetIsWritten(h: Hashes, m: L.Machine)
    requires m.pc == L.WriteServingReset(m.store.fn.(status := ResetServing(m.store.fn.status)))
    ensures Reaches(h, m, Stored(m, L.ListServings(FnStored(m), true)))
  {
    Steps(h, m, L.Write, Stored(m, L.ListServings(FnStored(m), true)));
  }

  lemma RedeployStage(h: Hashes, m: L.Machine) returns (m': L.Machine)
    requires m.pc == L.WriteServingReset(m.store.fn.(status := ResetServing(m.store.fn.status)))
    ensures Reaches(h, m, m')
    ensures m'.store == C.Redeploy(h, m.store) && m'.pc == L.Idle
  {
    ServingResetIsWritten(h, m);
    var m1 := Stored(m, L.ListServings(FnStored(m), true));
    CleaningStage(h, m1);
    var clean := m1.store.(servings := C.CleanServings(m1.store, m1.store.fn.status));
    var m2 := m1.(store := clean, pc := L.MakeServing(m1.store.fn));
    MakingServingStage(h, m2);
    m' := m2.(store := C.NewServing(h, m2.store), pc := L.Idle);
    ReachesThrough(h, m, m1, m2, m');
  }

  lemma RecordingStage(h: Hashes, m: L.Machine)
    requires m.pc.WriteServingTracked? && L.Current(m, m.pc.fn)
    ensures Reaches(h, m, Stored(m, L.Idle))
  {
    Steps(h, m, L.Write, Stored(m, L.Idle));
  }

  /** Is there news of a serving? */
  predicate HasNews(s: Store) {
    var found := Find(s.servings, Ref(s.fn.status.serving));
    && Tracks(s.fn.status.serving) && found.Found? && found.value.status.phase == ServingPhase
    && ServingChanged(s.fn.status.serving.value, found.value.status)
  }

  /** The machine after the look at the serving. */
  function Looked(m: L.Machine): L.Machine {
    if !HasNews(m.store) then m.(pc := L.Idle)
    else
      var st := Find(m.store.servings, Ref(m.store.fn.status.serving)).value.status;
      var f := m.store.fn.(status := RecordServing(m.store.fn.status, st));
      if st.state == Running
      then m.(pc := L.ListServings(f, false),
              log := m.log.(ran := m.log.ran + {Ref(m.store.fn.status.serving).value}))
      else m.(pc := L.WriteServingTracked(f))
  }

  lemma LooksAtServing(h: Hashes, m: L.Machine)
    requires m.pc == L.TrackServing(m.store.fn)
    ensures Reaches(h, m, Looked(m))
  {
    Steps(h, m, L.LookUp(true), Looked(m));
  }

  lemma FollowServingStage(h: Hashes, m: L.Machine) returns (m': L.Machine)
    requires m.pc == L.TrackServing(m.store.fn)
    ensures Reaches(h, m, m')
    ensures m'.store == C.FollowServing(m.store) && m'.pc == L.Idle
  {
    LooksAtServing(h, m);
    var m1 := Looked(m);
    if !HasNews(m.store) {
      m' := m1;
    } else if m1.pc.WriteServingTracked? {
      RecordingStage(h, m1);
      m' := Stored(m1, L.Idle);
      ReachesOn(h, m, m1, m');
    } else {
      CleaningStage(h, m1);
      var clean := m1.store.(servings := C.CleanServings(m1.store, m1.pc.fn.status));
      var m2 := m1.(store := clean, pc := L.WriteServingTracked(m1.pc.fn));
      RecordingStage(h, m2);
      m' := Stored(m2, L.Idle);
      ReachesThrough(h, m, m1, m2, m');
    }
  }

  /** Where the decision about a serving leads. */
  function AfterDecidingServing(h: Hashes, s: Store): L.Pc {
    if NeedServing(h, s.fn, Find(s.servings, Ref(s.fn.status.serving)))
    then L.WriteServingReset(s.fn.(status := ResetServing(s.fn.status))) else L.TrackServing(s.fn)
  }

  lemma DecidesOnServing(h: Hashes, m: L.Machine)
    requires m.pc == L.DecideServing(m.store.fn)
    ensures Reaches(h, m, m.(pc := AfterDecidingServing(h, m.store)))
  {
    Steps(h, m, L.LookUp(true), m.(pc := AfterDecidingServing(h, m.store)));
  }

  lemma ServingStage(h: Hashes, m: L.Machine) returns (m': L.Machine)
    requires m.pc == L.DecideServing(m.store.fn)
    ensures Reaches(h, m, m')
    ensures m'.store == C.ServingPart(h, m.store) && m'.pc == L.Idle
  {
    DecidesOnServing(h, m);
    var m1 := m.(pc := AfterDecidingServing(h, m.store));
    if m1.pc.WriteServingReset? {
      m' := RedeployStage(h, m1);
    } else {
      m' := FollowServingStage(h, m1);
    }
    ReachesOn(h, m, m1, m');
  }

  lemma Fetches(h: Hashes, m: L.Machine)
    requires m.pc == L.Idle
    ensures Reaches(h, m, m.(pc := L.DecideBuilder(m.store.fn)))
  {
    Steps(h, m, L.Fetch, m.(pc := L.DecideBuilder(m.store.fn)));
  }

  /** Main result: from rest, with no failing call and nobody else acting, the step machine comes to rest
      again in exactly the store that the undisturbed attempt computes. */
  lemma MachineComputesAttempt(h: Hashes, m: L.Machine, c: C.Choice) returns (m': L.Machine)
    requires m.pc == L.Idle && C.LegalChoice(m.store, c)
    ensures Reaches(h, m, m')
    ensures m'.pc == L.Idle && m'.store == C.Attempt(h, m.store, c)
  {
    Fetches(h, m);
    var m1 := m.(pc := L.DecideBuilder(m.store.fn));
    var m2 := BuilderStage(h, m1, c);
    m' := ServingStage(h, m2);
    ReachesThrough(h, m, m1, m2, m');
  }
}

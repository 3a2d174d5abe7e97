/** One attempt of the Function controller that no failure and no other actor disturbs, written as the
    controller is, and the function of the store that it computes. */
module FunctionController {
  import opened Api
  import opened FunctionLogic
  import opened BuilderHistory

  /** What an attempt does not determine itself: which builders a pruning keeps, and the server's clock. */
  datatype Choice = Choice(kept: set<Name>, at: int)

  ghost predicate LegalChoice(s: Store, c: Choice) {
    LegalPrune(s.builders, c.kept, LimitsOf(s.fn.spec))
  }

  function PutStatus(s: Store, status: FunctionStatus): Store {
    s.(fn := WithStatus(s.fn, status))
  }

  function CancelAll(bs: map<Name, Builder>): map<Name, Builder> {
    map n | n in bs :: if IsCompleted(bs[n].status.state) then bs[n] else Cancelled(bs[n])
  }

  function NewBuilder(h: Hashes, s: Store, at: int): Store {
    if s.fn.spec.build.None? then PutStatus(s, SkipBuild(h, s.fn.status))
    else
      var spec := CreateBuilderSpec(s.fn.spec);
      PutStatus(
        s.(builders := s.builders[s.next := Builder(spec, at, EMPTY_BUILDER_STATUS, 0)], next := s.next + 1),
        BuilderMade(h, s.fn.status, s.next, spec))
  }

  function Rebuild(h: Hashes, s: Store, c: Choice): Store {
    var reset := PutStatus(s, ResetBuild(s.fn.status));
    if Unfinished(s.builders) != {} then reset.(builders := CancelAll(s.builders))
    else NewBuilder(h, reset.(builders := Restrict(s.builders, c.kept)), c.at)
  }

  function FollowBuilder(s: Store, c: Choice): Store {
    var found := Find(s.builders, Ref(s.fn.status.build));
    if !Tracks(s.fn.status.build) || !found.Found? || found.value.status.phase != BuildPhase then s
    else
      var b := found.value.status;
      var noted := if BuildChanged(s.fn.status.build.value, b) then PutStatus(s, RecordBuild(s.fn.status, b)) else s;
      noted.(builders := Restrict(s.builders, c.kept))
  }

  /** The builder part of an attempt. */
  function BuilderPart(h: Hashes, s: Store, c: Choice): Store {
    if NeedBuilder(h, s.fn, Find(s.builders, Ref(s.fn.status.build))) then Rebuild(h, s, c)
    else FollowBuilder(s, c)
  }

  function CleanServings(s: Store, st: FunctionStatus): map<Name, Serving> {
    map n | n in s.servings && n in Spared(st) :: s.servings[n]
  }

  function NewServing(h: Hashes, s: Store): Store {
    if s.fn.spec.serving.None? then PutStatus(s, SkipServing(h, s.fn.status))
    else
      var spec := CreateServingSpec(s.fn);
      PutStatus(
        s.(servings := s.servings[s.next := Serving(spec, EMPTY_SERVING_STATUS, 0)], next := s.next + 1),
        ServingMade(h, s.fn.status, s.next, spec))
  }

  function Redeploy(h: Hashes, s: Store): Store {
    var reset := PutStatus(s, ResetServing(s.fn.status));
    NewServing(h, reset.(servings := CleanServings(reset, reset.fn.status)))
  }

  function FollowServing(s: Store): Store {
    var found := Find(s.servings, Ref(s.fn.status.serving));
    if !Tracks(s.fn.status.serving) || !found.Found? || found.value.status.phase != ServingPhase
       || !ServingChanged(s.fn.status.serving.value, found.value.status) then s
    else
      var status := RecordServing(s.fn.status, found.value.status);
      var clean := if found.value.status.state == Running then s.(servings := CleanServings(s, status)) else s;
      PutStatus(clean, status)
  }

  /** The serving part of an attempt. */
  function ServingPart(h: Hashes, s: Store): Store {
    if NeedServing(h, s.fn, Find(s.servings, Ref(s.fn.status.serving))) then Redeploy(h, s)
    else FollowServing(s)
  }

  /** A whole undisturbed attempt. */
  function Attempt(h: Hashes, s: Store, c: Choice): Store {
    ServingPart(h, BuilderPart(h, s, c))
  }

  // ---------- The controller ----------

  /** What is left when the first servings have been gone through. */
  ghost function Uncleaned(all: map<Name, Serving>, seen: seq<Name>, st: FunctionStatus): map<Name, Serving> {
    map n | n in all && (n in seen ==> n in Spared(st)) :: all[n]
  }

  lemma CleanedOneMore(all: map<Name, Serving>, items: seq<Name>, i: nat, st: FunctionStatus)
    requires i < |items|
    ensures var n, before := items[i], Uncleaned(all, items[..i], st);
      Uncleaned(all, items[..i + 1], st) == if n in Spared(st) then before else before - {n}
  {
    assert items[..i + 1] == items[..i] + [items[i]];
  }

  lemma AllCleaned(s: Store, items: seq<Name>, st: FunctionStatus)
    requires forall n :: n in items <==> n in s.servings
    ensures Uncleaned(s.servings, items, st) == CleanServings(s, st)
  {
  }

  /** A listing of all keys, in an order the caller cannot rely on. */
  method ListNames<T>(m: map<Name, T>) returns (order: seq<Name>)
    ensures Distinct(order) && forall n :: n in order <==> n in m
  {
    order := [];
    var rest := m.Keys;
    while rest != {}
      invariant Distinct(order)
      invariant rest <= m.Keys
      invariant forall n :: n in order <==> n in m && n !in rest
      decreases rest
    {
      var n :| n in rest;
      order, rest := order + [n], rest - {n};
    }
  }

  /** What is left when all but the kept of the first entries are gone. */
  ghost function Left(bs: map<Name, Builder>, seen: seq<Name>, kept: set<Name>): map<Name, Builder> {
    map n | n in bs && (n in kept || n !in seen) :: bs[n]
  }

  lemma LeftAfterOne(bs: map<Name, Builder>, items: seq<Name>, i: nat, kept: set<Name>)
    requires Distinct(items) && i < |items| && items[i] in bs
    ensures var n, before := items[i], Left(bs, items[..i], kept);
      && n in before && before[n] == bs[n]
      && Left(bs, items[..i + 1], kept) == if n in kept then before else before - {n}
  {
    assert items[..i + 1] == items[..i] + [items[i]];
    assert items[i] !in items[..i];
  }

  /** May one more builder in this state be kept, after that many failed and successful ones? */
  predicate HasRoom(limits: Limits, state: State, failed: int, successful: int) {
    IsCompleted(state) ==> (if state == Succeeded then successful else failed) < limits.For(state == Succeeded)
  }

  /** One round of pruning: how the counters move and when the i-th entry is kept. */
  lemma OneConsidered(bs: map<Name, Builder>, order: seq<Name>, items: seq<Name>, i: nat, limits: Limits)
    requires Lists(order, bs) && SortedByBeats(bs, order, items) && Distinct(items)
    requires (forall n :: n in items <==> n in bs) && i < |items|
    ensures var n := items[i];
      n in Survivors(bs, order, limits) <==>
        HasRoom(limits, bs[n].status.state, |Seen(bs, items[..i], false)|, |Seen(bs, items[..i], true)|)
    ensures |Seen(bs, items[..i + 1], true)| == |Seen(bs, items[..i], true)| + (if Done(bs[items[i]], true) then 1 else 0)
    ensures |Seen(bs, items[..i + 1], false)| == |Seen(bs, items[..i], false)| + (if Done(bs[items[i]], false) then 1 else 0)
  {
    SeenGrows(bs, items, i, true);
    SeenGrows(bs, items, i, false);
    SurvivesByRank(bs, order, items, limits, i);
  }

  lemma OneRound(bs: map<Name, Builder>, order: seq<Name>, items: seq<Name>, i: nat, limits: Limits, kept: set<Name>)
    requires Lists(order, bs) && items == NewestFirst(bs, order)
    requires i < |items| && kept == Survivors(bs, order, limits)
    ensures var n, before := items[i], Left(bs, items[..i], kept);
      && n in before && before[n] == bs[n]
      && Left(bs, items[..i + 1], kept) ==
           if HasRoom(limits, bs[n].status.state, |Seen(bs, items[..i], false)|, |Seen(bs, items[..i], true)|)
           then before else before - {n}
    ensures |Seen(bs, items[..i + 1], true)| == |Seen(bs, items[..i], true)| + (if Done(bs[items[i]], true) then 1 else 0)
    ensures |Seen(bs, items[..i + 1], false)| == |Seen(bs, items[..i], false)| + (if Done(bs[items[i]], false) then 1 else 0)
  {
    NewestFirstIsSorted(bs, order);
    SortedIsDistinct(bs, order, items);
    OneConsidered(bs, order, items, i, limits);
    LeftAfterOne(bs, items, i, kept);
  }

  lemma LeftAfterAll(bs: map<Name, Builder>, items: seq<Name>, kept: set<Name>)
    requires forall n :: n in bs ==> n in items
    ensures Left(bs, items, kept) == Restrict(bs, kept)
  {
  }

  lemma LeftAfterRounds(bs: map<Name, Builder>, order: seq<Name>, items: seq<Name>, kept: set<Name>)
    requires Lists(order, bs) && items == NewestFirst(bs, order)
    ensures Left(bs, items[..|items|], kept) == Restrict(bs, kept)
  {
    NewestFirstIsSorted(bs, order);
    assert items[..|items|] == items;
    LeftAfterAll(bs, items, kept);
  }

  /** The builders when those of the first entries that are unfinished have been asked to stop. */
  ghost function CancelledAmong(bs: map<Name, Builder>, seen: seq<Name>): map<Name, Builder> {
    map n | n in bs :: if n in seen && !IsCompleted(bs[n].status.state) then Cancelled(bs[n]) else bs[n]
  }

  ghost function UnfinishedAmong(bs: map<Name, Builder>, seen: seq<Name>): set<Name> {
    set n | n in seen && n in bs && !IsCompleted(bs[n].status.state)
  }

  lemma CancelledOneMore(bs: map<Name, Builder>, items: seq<Name>, i: nat)
    requires Distinct(items) && i < |items| && items[i] in bs
    ensures var n, before := items[i], CancelledAmong(bs, items[..i]);
      && before[n] == bs[n]
      && CancelledAmong(bs, items[..i + 1])
           == (if IsCompleted(bs[n].status.state) then before else before[n := Cancelled(bs[n])])
      && UnfinishedAmong(bs, items[..i + 1])
           == UnfinishedAmong(bs, items[..i]) + (if IsCompleted(bs[n].status.state) then {} else {n})
  {
    assert items[..i + 1] == items[..i] + [items[i]];
    assert items[i] !in items[..i];
  }

  lemma CancelledAmongAll(bs: map<Name, Builder>, items: seq<Name>)
    requires forall n :: n in bs ==> n in items
    ensures CancelledAmong(bs, items) == CancelAll(bs) && UnfinishedAmong(bs, items) == Unfinished(bs)
  {
  }

  lemma CancelsNothing(bs: map<Name, Builder>)
    requires Unfinished(bs) == {}
    ensures CancelAll(bs) == bs
  {
    forall n | n in bs ensures IsCompleted(bs[n].status.state) {
      assert n !in Unfinished(bs);
    }
  }

  lemma SomeListing<T>(m: map<Name, T>) returns (order: seq<Name>)
    ensures Distinct(order) && forall n :: n in order <==> n in m
  {
    if m == map[] {
      order := [];
    } else {
      var n :| n in m;
      order := SomeListing(m - {n});
      order := order + [n];
    }
  }

  class FunctionReconciler {
    const h: Hashes
    /** What the API server holds. */
    var store: Store
    /** The server's clock. */
    var clock: int

    constructor (h: Hashes, store: Store, clock: int)
      ensures this.h == h && this.store == store && this.clock == clock
    {
      this.h := h;
      this.store := store;
      this.clock := clock;
    }

    /** Writes the status and takes the stored object as the new local copy. */
    method UpdateStatus(fn: Function) returns (stored: Function)
      requires fn.spec == store.fn.spec && fn.version == store.fn.version
      modifies this`store
      ensures store == PutStatus(old(store), fn.status) && stored == store.fn
    {
      store := store.(fn := WithStatus(store.fn, fn.status));
      stored := store.fn;
    }

    /** Asks every unfinished builder to stop and says whether there was one. */
    method CancelOldBuilders() returns (waiting: bool)
      modifies this`store
      ensures waiting == (Unfinished(old(store.builders)) != {})
      ensures store == old(store).(builders := CancelAll(old(store.builders)))
    {
      ghost var bs := store.builders;
      var items := ListNames(store.builders);
      waiting := false;
      assert CancelledAmong(bs, items[..0]) == bs;
      for i := 0 to |items|
        invariant store == old(store).(builders := CancelledAmong(bs, items[..i]))
        invariant waiting == (UnfinishedAmong(bs, items[..i]) != {})
      {
        CancelledOneMore(bs, items, i);
        var builder := store.builders[items[i]];
        if !IsCompleted(builder.status.state) {
          store := store.(builders := store.builders[items[i] := Cancelled(builder)]);
          waiting := true;
        }
      }
      assert items[..|items|] == items;
      CancelledAmongAll(bs, items);
    }

    /** Deletes the finished builders beyond the history limits, newest first. */
    method PruneBuilders(fn: Function) returns (ghost order: seq<Name>)
      modifies this`store
      ensures Lists(order, old(store.builders))
      ensures store == old(store).(builders :=
        Restrict(old(store.builders), Survivors(old(store.builders), order, LimitsOf(fn.spec))))
    {
      var listed := ListNames(store.builders);
      order := listed;
      var items := NewestFirst(store.builders, listed);
      DeleteBeyondLimits(fn.spec, items, listed);
    }

    method DeleteBeyondLimits(spec: FunctionSpec, items: seq<Name>, ghost order: seq<Name>)
      requires Lists(order, store.builders) && items == NewestFirst(store.builders, order)
      modifies this`store
      ensures store == old(store).(builders :=
        Restrict(old(store.builders), Survivors(old(store.builders), order, LimitsOf(spec))))
    {
      ghost var bs, kept := store.builders, Survivors(store.builders, order, LimitsOf(spec));
      var failedNum, successfulNum := 0, 0;
      for i := 0 to |items|
        invariant store == old(store).(builders := Left(bs, items[..i], kept))
        invariant successfulNum == |Seen(bs, items[..i], true)|
        invariant failedNum == |Seen(bs, items[..i], false)|
      {
        OneRound(bs, order, items, i, LimitsOf(spec), kept);
        failedNum, successfulNum := DeleteUnlessRoom(spec, items[i], failedNum, successfulNum);
      }
      LeftAfterRounds(bs, order, items, kept);
    }

    method DeleteUnlessRoom(spec: FunctionSpec, n: Name, failedBefore: int, successfulBefore: int)
        returns (failedNum: int, successfulNum: int)
      requires n in store.builders
      modifies this`store
      ensures var state := old(store).builders[n].status.state;
        && successfulNum == successfulBefore + (if state == Succeeded then 1 else 0)
        && failedNum == failedBefore + (if IsCompleted(state) && state != Succeeded then 1 else 0)
        && store == if HasRoom(LimitsOf(spec), state, failedBefore, successfulBefore) then old(store)
             else old(store).(builders := old(store).builders - {n})
    {
      var keep;
      keep, failedNum, successfulNum := Count(spec, store.builders[n].status.state, failedBefore, successfulBefore);
      if !keep {
        store := store.(builders := store.builders - {n});
      }
    }

    /** Counts one more builder in this state and says whether its class still has room for it. */
    static method Count(spec: FunctionSpec, state: State, failedBefore: int, successfulBefore: int)
        returns (keep: bool, failedNum: int, successfulNum: int)
      ensures successfulNum == successfulBefore + if state == Succeeded then 1 else 0
      ensures failedNum == failedBefore + if IsCompleted(state) && state != Succeeded then 1 else 0
      ensures keep <==> HasRoom(LimitsOf(spec), state, failedBefore, successfulBefore)
    {
      var failedLimit, successfulLimit := FailedLimit(spec), SuccessfulLimit(spec);
      keep, failedNum, successfulNum := true, failedBefore, successfulBefore;
      if !IsCompleted(state) {
        return;
      }
      if state == Succeeded {
        successfulNum := successfulNum + 1;
        if successfulNum <= successfulLimit {
          return;
        }
      } else {
        failedNum := failedNum + 1;
        if failedNum <= failedLimit {
          return;
        }
      }
      keep := false;
    }

    /** The builder part; `c` is what the server decided on the way. */
    method CreateBuilder(f: Function) returns (fn: Function, ghost c: Choice)
      requires f == store.fn
      modifies this`store
      ensures LegalChoice(old(store), c) && c.at == clock
      ensures store == BuilderPart(h, old(store), c) && fn == store.fn
    {
      if NeedBuilder(h, f, Find(store.builders, Ref(f.status.build))) {
        fn, c := StartBuild(f);
      } else {
        fn, c := FollowBuild(f);
      }
    }

    /** Any legal choice, for an attempt that ends before it prunes. */
    lemma AnyChoice(s: Store, at: int) returns (c: Choice)
      ensures LegalChoice(s, c) && c.at == at
    {
      var order := SomeListing<Builder>(s.builders);
      SurvivorsAreLegal(s.builders, order, LimitsOf(s.fn.spec));
      c := Choice(Survivors(s.builders, order, LimitsOf(s.fn.spec)), at);
    }

    method StartBuild(f: Function) returns (fn: Function, ghost c: Choice)
      requires f == store.fn
      modifies this`store
      ensures LegalChoice(old(store), c) && c.at == clock
      ensures store == Rebuild(h, old(store), c) && fn == store.fn
    {
      fn := f.(status := ResetBuild(f.status));
      fn := UpdateStatus(fn);
      var waiting := CancelOldBuilders();
      if waiting {
        c := AnyChoice(old(store), clock);
        return;
      }
      CancelsNothing(old(store.builders));
      ghost var order := PruneBuilders(fn);
      SurvivorsAreLegal(old(store.builders), order, LimitsOf(f.spec));
      c := Choice(Survivors(old(store.builders), order, LimitsOf(f.spec)), clock);
      fn := MakeBuilder(fn);
    }

    /** With no builder running, records that there is nothing to build or creates a builder. */
    method MakeBuilder(f: Function) returns (fn: Function)
      requires f == store.fn
      modifies this`store
      ensures store == NewBuilder(h, old(store), clock) && fn == store.fn
    {
      fn := f;
      if fn.spec.build.None? {
        fn := fn.(status := SkipBuild(h, fn.status));
        fn := UpdateStatus(fn);
        return;
      }
      var n := store.next;
      var spec := CreateBuilderSpec(fn.spec);
      store := store.(builders := store.builders[n := Builder(spec, clock, EMPTY_BUILDER_STATUS, 0)], next := n + 1);
      fn := fn.(status := BuilderMade(h, fn.status, n, spec));
      fn := UpdateStatus(fn);
    }

    /** Takes over the outcome of the recorded builder. */
    method FollowBuild(f: Function) returns (fn: Function, ghost c: Choice)
      requires f == store.fn
      modifies this`store
      ensures LegalChoice(old(store), c) && c.at == clock
      ensures store == FollowBuilder(old(store), c) && fn == store.fn
    {
      fn := f;
      c := AnyChoice(store, clock);
      if fn.status.build.None? || fn.status.build.value.state == NoState {
        return;
      }
      var ref := fn.status.build.value.ref;
      if ref.None? || ref.value !in store.builders {
        return;
      }
      var builder := store.builders[ref.value];
      if builder.status.phase != BuildPhase {
        return;
      }
      if BuildChanged(fn.status.build.value, builder.status) {
        fn := fn.(status := RecordBuild(fn.status, builder.status));
        fn := UpdateStatus(fn);
      }
      ghost var order := PruneBuilders(fn);
      SurvivorsAreLegal(old(store.builders), order, LimitsOf(f.spec));
      c := Choice(Survivors(old(store.builders), order, LimitsOf(f.spec)), clock);
    }

    /** Deletes every serving that the status names neither as current nor as last successful. */
    method CleanServing(fn: Function)
      modifies this`store
      ensures store == old(store).(servings := CleanServings(old(store), fn.status))
    {
      ghost var all := store.servings;
      var name, oldName: Option<Name> := None, None;
      if fn.status.serving.Some? {
        name := fn.status.serving.value.ref;
        oldName := fn.status.serving.value.last;
      }
      var items := ListNames(store.servings);
      for i := 0 to |items|
        invariant store == old(store).(servings := Uncleaned(all, items[..i], fn.status))
      {
        var n := items[i];
        CleanedOneMore(all, items, i, fn.status);
        if Some(n) != name && Some(n) != oldName {
          store := store.(servings := store.servings - {n});
        }
      }
      assert items[..|items|] == items;
      AllCleaned(old(store), items, fn.status);
    }

    /** The serving part. */
    method CreateServing(f: Function) returns (fn: Function)
      requires f == store.fn
      modifies this`store
      ensures store == ServingPart(h, old(store)) && fn == store.fn
    {
      fn := f;
      if !NeedServing(h, fn, Find(store.servings, Ref(fn.status.serving))) {
        fn := FollowServed(fn);
        return;
      }
      fn := fn.(status := ResetServing(fn.status));
      fn := UpdateStatus(fn);
      CleanServing(fn);
      if fn.spec.serving.None? {
        fn := fn.(status := SkipServing(h, fn.status));
        fn := UpdateStatus(fn);
        return;
      }
      var n := store.next;
      var spec := CreateServingSpec(fn);
      store := store.(servings := store.servings[n := Serving(spec, EMPTY_SERVING_STATUS, 0)], next := n + 1);
      fn := fn.(status := ServingMade(h, fn.status, n, spec));
      fn := UpdateStatus(fn);
    }

    /** Takes over the outcome of the recorded serving. */
    method FollowServed(f: Function) returns (fn: Function)
      requires f == store.fn
      modifies this`store
      ensures store == FollowServing(old(store)) && fn == store.fn
    {
      fn := f;
      if fn.status.serving.None? || fn.status.serving.value.state == NoState {
        return;
      }
      var ref := fn.status.serving.value.ref;
      if ref.None? || ref.value !in store.servings {
        return;
      }
      var serving := store.servings[ref.value];
      if serving.status.phase != ServingPhase {
        return;
      }
      if ServingChanged(fn.status.serving.value, serving.status) {
        fn := fn.(status := RecordServing(fn.status, serving.status));
        if serving.status.state == Running {
          CleanServing(fn);
        }
        fn := UpdateStatus(fn);
      }
    }

    /** A whole attempt. */
    method Reconcile() returns (ghost c: Choice)
      modifies this`store
      ensures LegalChoice(old(store), c) && c.at == clock
      ensures store == Attempt(h, old(store), c)
    {
      var fn := store.fn;
      fn, c := CreateBuilder(fn);
      fn := CreateServing(fn);
    }
  }
}

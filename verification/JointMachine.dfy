/** The Function controller's machine together with one Builder controller's machine for each of its builders. Here no
    assumption is made on how a builder's status moves: every move is a step of that builder's own machine, and what
    the worker and others do to a builder - marking it as cancelled, deleting it - happens to that machine. */
module JointMachine {
  import opened Api
  import opened FunctionLogic
  import L = Lifecycle
  import B = BuilderController
  import R = Rollout

  datatype Part = Part(p: B.Params, machine: B.Machine)

  /** The machines of deleted builders stay: their goroutines may still be at work. */
  datatype Joint = Joint(worker: L.Machine, parts: map<Name, Part>)

  datatype Action =
    | OfFunction(f: L.Action)
    | OfBuilder(name: Name, b: B.Action)

  function ParamsOf(b: Builder): B.Params {
    B.Params(if b.created < 0 then 0 else b.created, b.spec.build.timeout)
  }

  function Happens(part: Part, a: B.Action): Part {
    part.(machine := B.Step(part.p, part.machine, a))
  }

  /** What a step of the function's machine does to the machine of builder `n`. */
  function Follow(before: map<Name, Builder>, after: map<Name, Builder>, n: Name, part: Part): Part {
    if n !in before then part
    else if n !in after then Happens(part, B.Vanish)
    else if after[n].version != before[n].version then Happens(part, B.SpecChanges)
    else part
  }

  function Parts(before: map<Name, Builder>, after: map<Name, Builder>, parts: map<Name, Part>): map<Name, Part> {
    map n | n in parts.Keys + after.Keys ::
      if n in parts then Follow(before, after, n, parts[n])
      else Part(ParamsOf(after[n]), B.Init(ParamsOf(after[n])))
  }

  /** The function's machine when builder `n` is stored like this. */
  function Written(m: L.Machine, n: Name, o: B.Object): L.Machine
    requires n in m.store.builders
  {
    var b := m.store.builders[n];
    m.(store := m.store.(builders := m.store.builders[n := b.(status := o.status, version := o.version)]),
       log := if o.status != b.status && o.status.state == Succeeded
              then m.log.(outcome := m.log.outcome[n := o.status.output]) else m.log)
  }

  /** After a step of builder `n`'s own machine. */
  function Stepped(j: Joint, n: Name, part: Part): Joint {
    Joint(if n in j.worker.store.builders && part.machine.store.Some?
          then Written(j.worker, n, part.machine.store.value) else j.worker,
          j.parts[n := part])
  }

  ghost function Step(h: Hashes, j: Joint, a: Action): Joint {
    match a
    case OfFunction(f) =>
      if f.BuilderMoves? then j
      else
        var next := L.Next(h, j.worker, f);
        Joint(next, Parts(j.worker.store.builders, next.store.builders, j.parts))
    case OfBuilder(n, b) =>
      if n !in j.parts || b.SpecChanges? || b.Vanish? then j else Stepped(j, n, Happens(j.parts[n], b))
  }

  ghost function Run(h: Hashes, spec: FunctionSpec, acts: seq<Action>): Joint {
    if acts == [] then Joint(L.Init(spec), map[])
    else Step(h, Run(h, spec, acts[..|acts| - 1]), acts[|acts| - 1])
  }

  // ---------- The machines agree ----------

  /** The builder as its own machine sees it. */
  ghost predicate Agrees(builders: map<Name, Builder>, n: Name, part: Part) {
    && B.CopyInv(part.machine)
    && part.machine.store ==
         if n in builders then Some(B.Object(builders[n].status, builders[n].version)) else None
  }

  ghost predicate AgreeInv(j: Joint) {
    && R.LogInv(j.worker)
    && (forall n :: n in j.worker.store.builders ==> n in j.parts)
    && (forall n :: n in j.parts ==> n < j.worker.store.next && Agrees(j.worker.store.builders, n, j.parts[n]))
  }

  /** What a step of the function's machine may do to a builder. */
  predicate Touched(before: map<Name, Builder>, after: map<Name, Builder>, n: Name) {
    n in before && n in after ==>
      after[n].status == before[n].status && after[n].version in {before[n].version, before[n].version + 1}
  }

  lemma WorkerTouches(h: Hashes, m: L.Machine, a: L.Action, n: Name)
    requires R.LogInv(m)
    ensures var m' := L.BuilderCall(h, m, a);
      && Touched(m.store.builders, m'.store.builders, n)
      && (n in m'.store.builders && n !in m.store.builders ==>
            n == m.store.next && m'.store.next == n + 1
            && m'.store.builders[n].status == EMPTY_BUILDER_STATUS && m'.store.builders[n].version == 0)
      && m.store.next <= m'.store.next
  {
    if !(a.Touch? && (m.pc.Cancel? || m.pc.Prune?)) && !(a.Make? && m.pc.MakeBuilder?) {
      R.BuilderCallFrame(h, m, a);
    }
  }

  lemma OthersTouch(m: L.Machine, a: L.Action, n: Name)
    requires !a.BuilderMoves?
    ensures var m' := L.OthersAct(m, a);
      && Touched(m.store.builders, m'.store.builders, n)
      && (n in m'.store.builders ==> n in m.store.builders)
      && m'.store.next == m.store.next
  {
  }

  lemma NextTouches(h: Hashes, m: L.Machine, a: L.Action, n: Name)
    requires R.LogInv(m) && !a.BuilderMoves?
    ensures var m' := L.Next(h, m, a);
      && Touched(m.store.builders, m'.store.builders, n)
      && (n in m'.store.builders && n !in m.store.builders ==>
            n == m.store.next && n < m'.store.next
            && m'.store.builders[n].status == EMPTY_BUILDER_STATUS && m'.store.builders[n].version == 0)
      && m.store.next <= m'.store.next
  {
    OthersTouch(m, a, n);
    WorkerTouches(h, m, a, n);
    R.ServingCallFrame(h, m, a);
  }

  lemma InitIsSound(p: B.Params)
    ensures B.CopyInv(B.Init(p))
  {
    assert B.Run(p, []) == B.Init(p);
    B.RunKeepsCopyInv(p, []);
  }

  lemma FollowAgrees(before: map<Name, Builder>, after: map<Name, Builder>, n: Name, part: Part)
    requires Agrees(before, n, part) && Touched(before, after, n) && (n in after ==> n in before)
    ensures Agrees(after, n, Follow(before, after, n, part))
  {
    B.StepKeepsCopyInv(part.p, part.machine, B.Vanish);
    B.StepKeepsCopyInv(part.p, part.machine, B.SpecChanges);
  }

  lemma FunctionStepAgrees(h: Hashes, j: Joint, f: L.Action)
    requires AgreeInv(j) && !f.BuilderMoves?
    ensures AgreeInv(Step(h, j, OfFunction(f)))
  {
    var m, m' := j.worker, L.Next(h, j.worker, f);
    var before, after := m.store.builders, m'.store.builders;
    R.NextKeepsLogInv(h, m, f);
    var parts := Parts(before, after, j.parts);
    forall n | n in parts ensures n < m'.store.next && Agrees(after, n, parts[n]) {
      NextTouches(h, m, f, n);
      if n in j.parts {
        FollowAgrees(before, after, n, j.parts[n]);
      } else {
        InitIsSound(ParamsOf(after[n]));
      }
    }
  }

  /** What a step of a builder's machine stores: what was there, or a new status under the next version. */
  lemma StepStores(p: B.Params, m: B.Machine, a: B.Action)
    requires !a.SpecChanges? && !a.Vanish?
    ensures var m' := B.Step(p, m, a);
      m'.store == m.store || (m.store.Some? && m'.store.Some? && m'.store.value == B.Stored(m, m'.store.value.status))
  {
  }

  /** Storing a status that may follow is a move of the function's machine. */
  lemma WritingIsAMove(h: Hashes, m: L.Machine, n: Name, o: B.Object)
    requires n in m.store.builders && MayFollow(m.store.builders[n].status, o.status)
    requires o.status != m.store.builders[n].status && o.version == m.store.builders[n].version + 1
    ensures Written(m, n, o) == L.Next(h, m, L.BuilderMoves(n, o.status))
  {
    var b := m.store.builders[n];
    assert b.(status := o.status, version := o.version) == WithBuilderStatus(b, o.status);
  }

  lemma WritingTheSame(m: L.Machine, n: Name, o: B.Object)
    requires n in m.store.builders
    requires o.status == m.store.builders[n].status && o.version == m.store.builders[n].version
    ensures Written(m, n, o) == m
  {
    var b := m.store.builders[n];
    assert b.(status := o.status, version := o.version) == b;
    assert m.store.builders[n := b] == m.store.builders;
  }

  /** A step of a builder's own machine stores what was there or moves the status on under the next version. */
  lemma BuilderStepMovesOn(p: B.Params, m: B.Machine, a: B.Action)
    requires B.CopyInv(m) && m.store.Some? && !a.SpecChanges? && !a.Vanish?
    ensures var m' := B.Step(p, m, a);
      && B.CopyInv(m') && m'.store.Some?
      && var st, st' := m.store.value.status, m'.store.value.status;
        && (m'.store == m.store
            || (st' != st && MayFollow(st, st') && m'.store.value.version == m.store.value.version + 1))
        && (IsCompleted(st.state) ==> st' == st)
  {
    B.StepKeepsCopyInv(p, m, a);
    StepStores(p, m, a);
  }

  /** A step of a builder's own machine is, for the function's machine, no step or a move of that builder. */
  lemma BuilderStepMoves(h: Hashes, m: L.Machine, n: Name, part: Part, b: B.Action)
    requires n in m.store.builders && Agrees(m.store.builders, n, part) && !b.SpecChanges? && !b.Vanish?
    ensures var part' := Happens(part, b);
      && part'.machine.store.Some?
      && var o := part'.machine.store.value;
        && Agrees(Written(m, n, o).store.builders, n, part')
        && Written(m, n, o)
             == (if o.status == m.store.builders[n].status then m else L.Next(h, m, L.BuilderMoves(n, o.status)))
        && (IsCompleted(m.store.builders[n].status.state) ==> o.status == m.store.builders[n].status)
  {
    BuilderStepMovesOn(part.p, part.machine, b);
    var o := Happens(part, b).machine.store.value;
    if o.status == m.store.builders[n].status {
      WritingTheSame(m, n, o);
    } else {
      WritingIsAMove(h, m, n, o);
    }
  }

  /** The builder is gone; its goroutines may still be at work. */
  lemma LateStepAgrees(h: Hashes, j: Joint, n: Name, b: B.Action)
    requires AgreeInv(j) && n in j.parts && n !in j.worker.store.builders && !b.SpecChanges? && !b.Vanish?
    ensures var next := Stepped(j, n, Happens(j.parts[n], b)); AgreeInv(next) && next.worker == j.worker
  {
    assert Agrees(j.worker.store.builders, n, j.parts[n]);
    B.StepKeepsCopyInv(j.parts[n].p, j.parts[n].machine, b);
  }

  /** Storing what builder `n`'s own machine holds makes the machines agree again. */
  lemma WritingAgrees(j: Joint, n: Name, part: Part, m': L.Machine)
    requires AgreeInv(j) && n in j.worker.store.builders && part.machine.store.Some?
    requires m' == Written(j.worker, n, part.machine.store.value) && R.LogInv(m') && Agrees(m'.store.builders, n, part)
    ensures AgreeInv(Joint(m', j.parts[n := part]))
  {
    var parts := j.parts[n := part];
    forall k | k in parts ensures k < m'.store.next && Agrees(m'.store.builders, k, parts[k]) {
      assert n in j.parts && n < j.worker.store.next;
    }
  }

  lemma MovingAgrees(h: Hashes, j: Joint, n: Name, part: Part)
    requires AgreeInv(j) && n in j.worker.store.builders && part.machine.store.Some?
    requires
      var m' := Written(j.worker, n, part.machine.store.value);
      && Agrees(m'.store.builders, n, part)
      && (m' == j.worker || m' == L.Next(h, j.worker, L.BuilderMoves(n, part.machine.store.value.status)))
    ensures AgreeInv(Stepped(j, n, part)) && MayMove(h, j.worker, Stepped(j, n, part).worker, n)
  {
    var o := part.machine.store.value;
    R.NextKeepsLogInv(h, j.worker, L.BuilderMoves(n, o.status));
    WritingAgrees(j, n, part, Written(j.worker, n, o));
  }

  /** Nothing, or a move of builder `n`. */
  ghost predicate MayMove(h: Hashes, m: L.Machine, m': L.Machine, n: Name) {
    m' == m || exists st :: m' == L.Next(h, m, L.BuilderMoves(n, st))
  }

  lemma StoredStepAgrees(h: Hashes, j: Joint, n: Name, b: B.Action)
    requires AgreeInv(j) && n in j.worker.store.builders && !b.SpecChanges? && !b.Vanish?
    ensures
      var next := Stepped(j, n, Happens(j.parts[n], b));
      AgreeInv(next) && MayMove(h, j.worker, next.worker, n)
  {
    BuilderStepMoves(h, j.worker, n, j.parts[n], b);
    MovingAgrees(h, j, n, Happens(j.parts[n], b));
  }

  lemma BuilderStepAgrees(h: Hashes, j: Joint, n: Name, b: B.Action)
    requires AgreeInv(j)
    ensures AgreeInv(Step(h, j, OfBuilder(n, b)))
    ensures MayMove(h, j.worker, Step(h, j, OfBuilder(n, b)).worker, n)
  {
    if n in j.parts && !b.SpecChanges? && !b.Vanish? {
      if n in j.worker.store.builders {
        StoredStepAgrees(h, j, n, b);
      } else {
        LateStepAgrees(h, j, n, b);
      }
    }
  }

  /** How builder `n` has moved, if its own machine is like this now. */
  function Move(m: L.Machine, n: Name, part: Part): Option<L.Action> {
    var stored := part.machine.store;
    if n in m.store.builders && stored.Some? && stored.value.status != m.store.builders[n].status
    then Some(L.BuilderMoves(n, stored.value.status)) else None
  }

  /** What the function's machine sees of an action: its own ones, and the moves of its builders. */
  function Seen(j: Joint, a: Action): Option<L.Action> {
    match a
    case OfFunction(f) => if f.BuilderMoves? then None else Some(f)
    case OfBuilder(n, b) =>
      if n !in j.parts || b.SpecChanges? || b.Vanish? then None else Move(j.worker, n, Happens(j.parts[n], b))
  }

  /** The function's side of a joint run. */
  ghost function Projected(h: Hashes, spec: FunctionSpec, acts: seq<Action>): seq<L.Action> {
    if acts == [] then []
    else
      var a := Seen(Run(h, spec, acts[..|acts| - 1]), acts[|acts| - 1]);
      Projected(h, spec, acts[..|acts| - 1]) + (if a.Some? then [a.value] else [])
  }

  /** The function's machine after what it has seen. */
  ghost function After(h: Hashes, m: L.Machine, f: Option<L.Action>): L.Machine {
    if f.Some? then L.Next(h, m, f.value) else m
  }

  lemma BuilderStepIsSeen(h: Hashes, j: Joint, n: Name, b: B.Action)
    requires AgreeInv(j) && n in j.parts && !b.SpecChanges? && !b.Vanish?
    ensures var part := Happens(j.parts[n], b);
      Stepped(j, n, part).worker == After(h, j.worker, Move(j.worker, n, part))
  {
    if n in j.worker.store.builders {
      BuilderStepMoves(h, j.worker, n, j.parts[n], b);
    }
  }

  lemma StepIsSeen(h: Hashes, j: Joint, a: Action)
    requires AgreeInv(j)
    ensures AgreeInv(Step(h, j, a)) && Step(h, j, a).worker == After(h, j.worker, Seen(j, a))
  {
    match a
    case OfFunction(f) =>
      if !f.BuilderMoves? {
        FunctionStepAgrees(h, j, f);
      }
    case OfBuilder(n, b) =>
      BuilderStepAgrees(h, j, n, b);
      if n in j.parts && !b.SpecChanges? && !b.Vanish? {
        BuilderStepIsSeen(h, j, n, b);
      }
  }

  /** Main result: the function's side of a joint run is a run of its own machine, in which builders move as that
      machine lets them, with the same edits, deletions, calls and failures. */
  lemma {:induction false} JointRunIsARun(h: Hashes, spec: FunctionSpec, acts: seq<Action>)
    ensures AgreeInv(Run(h, spec, acts))
    ensures Run(h, spec, acts).worker == L.Run(h, spec, Projected(h, spec, acts))
  {
    if acts != [] {
      var before, a := acts[..|acts| - 1], acts[|acts| - 1];
      JointRunIsARun(h, spec, before);
      StepIsSeen(h, Run(h, spec, before), a);
      var fs, f := Projected(h, spec, before), Seen(Run(h, spec, before), a);
      if f.Some? {
        OneMore(h, spec, fs, f.value);
      } else {
        assert fs + [] == fs;
      }
    }
  }

  lemma OneMore(h: Hashes, spec: FunctionSpec, fs: seq<L.Action>, f: L.Action)
    ensures L.Run(h, spec, fs + [f]) == L.Next(h, L.Run(h, spec, fs), f)
  {
    assert (fs + [f])[..|fs|] == fs;
  }

  /** The same for each builder: its part of a joint run is a run of its own machine. */
  lemma {:induction false} EachPartIsARun(h: Hashes, spec: FunctionSpec, acts: seq<Action>, n: Name)
    returns (bs: seq<B.Action>)
    requires n in Run(h, spec, acts).parts
    ensures var part := Run(h, spec, acts).parts[n]; part.machine == B.Run(part.p, bs)
  {
    var j, a := Run(h, spec, acts[..|acts| - 1]), acts[|acts| - 1];
    bs := [];
    if n in j.parts {
      bs := EachPartIsARun(h, spec, acts[..|acts| - 1], n);
      match a
      case OfFunction(f) =>
        var before, after := j.worker.store.builders, L.Next(h, j.worker, f).store.builders;
        if !f.BuilderMoves? && n in before && n !in after {
          bs := OneMoreOf(j.parts[n].p, bs, B.Vanish);
        } else if !f.BuilderMoves? && n in before && after[n].version != before[n].version {
          bs := OneMoreOf(j.parts[n].p, bs, B.SpecChanges);
        }
      case OfBuilder(k, b) =>
        if k == n && !b.SpecChanges? && !b.Vanish? {
          bs := OneMoreOf(j.parts[n].p, bs, b);
        }
    }
  }

  /** What a builder's machine is told about it. */
  predicate Knows(b: Builder, p: B.Params) {
    p.timeout == b.spec.build.timeout && (b.created >= 0 ==> p.created == b.created)
  }

  lemma WorkerKeepsSpecs(h: Hashes, m: L.Machine, a: L.Action, n: Name)
    requires R.LogInv(m) && n in m.store.builders
    ensures var after := L.BuilderCall(h, m, a).store.builders;
      n in after ==>
        after[n].spec.build == m.store.builders[n].spec.build && after[n].created == m.store.builders[n].created
  {
    if !(a.Touch? && (m.pc.Cancel? || m.pc.Prune?)) && !(a.Make? && m.pc.MakeBuilder?) {
      R.BuilderCallFrame(h, m, a);
    }
  }

  lemma NextKeepsSpecs(h: Hashes, m: L.Machine, a: L.Action, n: Name)
    requires R.LogInv(m) && n in m.store.builders && !a.BuilderMoves?
    ensures var after := L.Next(h, m, a).store.builders;
      n in after ==>
        after[n].spec.build == m.store.builders[n].spec.build && after[n].created == m.store.builders[n].created
  {
    WorkerKeepsSpecs(h, m, a, n);
    R.ServingCallFrame(h, m, a);
  }

  ghost predicate KnowInv(j: Joint) {
    forall n :: n in j.worker.store.builders ==> n in j.parts && Knows(j.worker.store.builders[n], j.parts[n].p)
  }

  lemma FollowingKnows(before: map<Name, Builder>, after: map<Name, Builder>, parts: map<Name, Part>, n: Name)
    requires n in after && (n in parts <==> n in before)
    requires n in before ==> Knows(after[n], parts[n].p)
    ensures n in Parts(before, after, parts) && Knows(after[n], Parts(before, after, parts)[n].p)
  {
  }

  lemma FunctionStepKnows(h: Hashes, j: Joint, f: L.Action)
    requires AgreeInv(j) && KnowInv(j) && !f.BuilderMoves?
    ensures KnowInv(Step(h, j, OfFunction(f)))
  {
    var before, after := j.worker.store.builders, L.Next(h, j.worker, f).store.builders;
    forall n | n in after
      ensures n in Parts(before, after, j.parts) && Knows(after[n], Parts(before, after, j.parts)[n].p)
    {
      NextTouches(h, j.worker, f, n);
      if n in before {
        NextKeepsSpecs(h, j.worker, f, n);
      }
      FollowingKnows(before, after, j.parts, n);
    }
  }

  lemma BuilderStepKnows(j: Joint, n: Name, b: B.Action)
    requires KnowInv(j) && n in j.parts
    ensures KnowInv(Stepped(j, n, Happens(j.parts[n], b)))
  {
  }

  lemma StepKnows(h: Hashes, j: Joint, a: Action)
    requires AgreeInv(j) && KnowInv(j)
    ensures KnowInv(Step(h, j, a))
  {
    match a
    case OfFunction(f) => if !f.BuilderMoves? { FunctionStepKnows(h, j, f); }
    case OfBuilder(n, b) => if n in j.parts { BuilderStepKnows(j, n, b); }
  }

  /** In every joint run each builder's machine works with that builder's own creation time and timeout. */
  lemma {:induction false} PartsKnowTheirBuilders(h: Hashes, spec: FunctionSpec, acts: seq<Action>)
    ensures KnowInv(Run(h, spec, acts))
  {
    if acts != [] {
      PartsKnowTheirBuilders(h, spec, acts[..|acts| - 1]);
      JointRunIsARun(h, spec, acts[..|acts| - 1]);
      StepKnows(h, Run(h, spec, acts[..|acts| - 1]), acts[|acts| - 1]);
    }
  }

  lemma KnownFor(j: Joint, n: Name)
    requires KnowInv(j) && n in j.worker.store.builders
    ensures n in j.parts && Knows(j.worker.store.builders[n], j.parts[n].p)
  {
  }

  lemma PartKnowsItsBuilder(h: Hashes, spec: FunctionSpec, acts: seq<Action>, n: Name)
    requires n in Run(h, spec, acts).worker.store.builders
    ensures n in Run(h, spec, acts).parts
    ensures Knows(Run(h, spec, acts).worker.store.builders[n], Run(h, spec, acts).parts[n].p)
  {
    PartsKnowTheirBuilders(h, spec, acts);
    KnownFor(Run(h, spec, acts), n);
  }

  lemma OneMoreOf(p: B.Params, bs: seq<B.Action>, b: B.Action) returns (more: seq<B.Action>)
    ensures B.Run(p, more) == B.Step(p, B.Run(p, bs), b)
  {
    more := bs + [b];
    assert more[..|bs|] == bs;
  }

  // ---------- What this says about builders ----------

  /** Main result: in every interleaving of the Function controller, the Builder controllers and their goroutines, with
      any call failing, at most one builder of the function is unfinished. */
  lemma SingleBuild(h: Hashes, spec: FunctionSpec, acts: seq<Action>)
    ensures L.AtMostOneUnfinished(Run(h, spec, acts).worker.store.builders)
  {
    JointRunIsARun(h, spec, acts);
    L.SingleBuild(h, spec, Projected(h, spec, acts));
  }

  lemma BuilderStepFreezes(h: Hashes, j: Joint, k: Name, b: B.Action, n: Name)
    requires AgreeInv(j) && n in j.worker.store.builders && IsCompleted(j.worker.store.builders[n].status.state)
    requires k in j.parts && !b.SpecChanges? && !b.Vanish?
    ensures
      var after := Stepped(j, k, Happens(j.parts[k], b)).worker.store.builders;
      n in after && after[n].status == j.worker.store.builders[n].status
  {
    if k in j.worker.store.builders {
      BuilderStepMoves(h, j.worker, k, j.parts[k], b);
    }
  }

  lemma StepFreezes(h: Hashes, j: Joint, a: Action, n: Name)
    requires AgreeInv(j) && n in j.worker.store.builders && IsCompleted(j.worker.store.builders[n].status.state)
    ensures
      var after := Step(h, j, a).worker.store.builders;
      n in after ==> after[n].status == j.worker.store.builders[n].status
  {
    match a
    case OfFunction(f) =>
      if !f.BuilderMoves? {
        NextTouches(h, j.worker, f, n);
      }
    case OfBuilder(k, b) =>
      if k in j.parts && !b.SpecChanges? && !b.Vanish? {
        BuilderStepFreezes(h, j, k, b, n);
      }
  }

  /** Main result: no step of any controller or goroutine changes the status of a finished builder. */
  lemma FinishedBuilderIsFrozen(h: Hashes, spec: FunctionSpec, acts: seq<Action>, a: Action, n: Name)
    requires n in Run(h, spec, acts).worker.store.builders
    requires IsCompleted(Run(h, spec, acts).worker.store.builders[n].status.state)
    ensures
      var before := Run(h, spec, acts).worker.store.builders;
      var after := Step(h, Run(h, spec, acts), a).worker.store.builders;
      n in after ==> after[n].status == before[n].status
  {
    JointRunIsARun(h, spec, acts);
    StepFreezes(h, Run(h, spec, acts), a, n);
  }

  /** What a succeeded builder reported is on record for ever, as it was reported. */
  lemma OutcomeIsFinal(h: Hashes, spec: FunctionSpec, acts: seq<Action>, a: Action, n: Name)
    requires n in Run(h, spec, acts).worker.log.outcome
    ensures
      var before := Run(h, spec, acts).worker.log.outcome;
      var after := Step(h, Run(h, spec, acts), a).worker.log.outcome;
      n in after && after[n] == before[n]
  {
    var j := Run(h, spec, acts);
    JointRunIsARun(h, spec, acts);
    R.RecordsHold(h, spec, Projected(h, spec, acts));
    StepIsSeen(h, j, a);
    if Seen(j, a).Some? {
      R.NextKeepsOutcomeInv(h, j.worker, Seen(j, a).value);
    }
  }
}

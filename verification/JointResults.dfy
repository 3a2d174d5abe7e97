/** The results on the function's runs that depend on what happens in them - how often calls fail, what is edited, when
    builders are made - for the Function controller and the Builder controllers together. */
module JointResults {
  import opened Api
  import opened FunctionLogic
  import opened JointMachine
  import B = BuilderController
  import L = Lifecycle
  import NoGap
  import BuildCount

  /** The function's machine before the last action. */
  ghost function Before(h: Hashes, spec: FunctionSpec, acts: seq<Action>): L.Machine
    requires acts != []
  {
    Run(h, spec, acts[..|acts| - 1]).worker
  }

  /** What has been seen, one action further. */
  lemma OneMoreSeen(h: Hashes, spec: FunctionSpec, acts: seq<Action>)
    requires acts != []
    ensures
      var f := Seen(Run(h, spec, acts[..|acts| - 1]), acts[|acts| - 1]);
      var fs, more := Projected(h, spec, acts[..|acts| - 1]), Projected(h, spec, acts);
      && Before(h, spec, acts) == L.Run(h, spec, fs)
      && (f.None? ==> more == fs)
      && (f.Some? ==> more != [] && more[..|more| - 1] == fs && more[|more| - 1] == f.value)
      && (f.Some? ==> f.value.BuilderMoves? || acts[|acts| - 1] == OfFunction(f.value))
  {
    JointRunIsARun(h, spec, acts[..|acts| - 1]);
    var fs, f := Projected(h, spec, acts[..|acts| - 1]), Seen(Run(h, spec, acts[..|acts| - 1]), acts[|acts| - 1]);
    if f.Some? {
      assert (fs + [f.value])[..|fs|] == fs;
    }
  }

  // ---------- How many builders there are ----------

  /** The causes for another builder among the actions of a joint run. */
  ghost function Causes(h: Hashes, spec: FunctionSpec, acts: seq<Action>): nat {
    if acts == [] then 0
    else
      var a := acts[|acts| - 1];
      Causes(h, spec, acts[..|acts| - 1])
        + if a.OfFunction? then BuildCount.Cause(h, Before(h, spec, acts), a.f) else 0
  }

  /** Growing creation times, and only specifications with room. */
  ghost predicate Orderly(h: Hashes, spec: FunctionSpec, acts: seq<Action>) {
    if acts == [] then BuildCount.Roomy(spec)
    else
      var a := acts[|acts| - 1];
      && Orderly(h, spec, acts[..|acts| - 1])
      && (a.OfFunction? ==>
            BuildCount.Later(Before(h, spec, acts), a.f) && (a.f.Edit? ==> BuildCount.Roomy(a.f.spec)))
  }

  lemma {:induction false} ProjectionIsOrderly(h: Hashes, spec: FunctionSpec, acts: seq<Action>)
    requires Orderly(h, spec, acts)
    ensures BuildCount.Orderly(h, spec, Projected(h, spec, acts))
    ensures BuildCount.Causes(h, spec, Projected(h, spec, acts)) == Causes(h, spec, acts)
  {
    if acts != [] {
      ProjectionIsOrderly(h, spec, acts[..|acts| - 1]);
      OneMoreSeen(h, spec, acts);
    }
  }

  /** Main result: in every interleaving of the Function controller with the Builder controllers and goroutines of its
      builders, any call failing, there were never more builders than one plus the causes. */
  lemma BuildersAreCounted(h: Hashes, spec: FunctionSpec, acts: seq<Action>)
    requires Orderly(h, spec, acts)
    ensures |Run(h, spec, acts).worker.log.born.Keys| <= 1 + Causes(h, spec, acts)
  {
    ProjectionIsOrderly(h, spec, acts);
    JointRunIsARun(h, spec, acts);
    BuildCount.BuildersAreCounted(h, spec, Projected(h, spec, acts));
  }

  // ---------- No gap ----------

  ghost predicate AllMild(h: Hashes, spec: FunctionSpec, acts: seq<Action>) {
    acts != [] ==>
      var a := acts[|acts| - 1];
      && AllMild(h, spec, acts[..|acts| - 1])
      && (a.OfFunction? ==> NoGap.Mild(Before(h, spec, acts), a.f))
  }

  predicate KindsKept(spec: FunctionSpec, acts: seq<Action>) {
    forall a :: a in acts ==> a.OfFunction? && a.f.Edit? ==> NoGap.SameKind(a.f.spec, spec)
  }

  lemma MildOnceMore(h: Hashes, spec: FunctionSpec, fs: seq<L.Action>)
    requires fs != [] && NoGap.AllMild(h, spec, fs[..|fs| - 1])
    requires NoGap.Mild(L.Run(h, spec, fs[..|fs| - 1]), fs[|fs| - 1])
    ensures NoGap.AllMild(h, spec, fs)
  {
  }

  lemma {:induction false} ProjectionIsMild(h: Hashes, spec: FunctionSpec, acts: seq<Action>)
    requires AllMild(h, spec, acts)
    ensures NoGap.AllMild(h, spec, Projected(h, spec, acts))
  {
    if acts != [] {
      ProjectionIsMild(h, spec, acts[..|acts| - 1]);
      OneMoreSeen(h, spec, acts);
      var f := Seen(Run(h, spec, acts[..|acts| - 1]), acts[|acts| - 1]);
      if f.Some? {
        assert NoGap.Mild(Before(h, spec, acts), f.value);
        MildOnceMore(h, spec, Projected(h, spec, acts));
      }
    }
  }

  lemma {:induction false} ProjectionKeepsKinds(h: Hashes, spec: FunctionSpec, acts: seq<Action>)
    requires KindsKept(spec, acts)
    ensures NoGap.KindsKept(spec, Projected(h, spec, acts))
  {
    if acts != [] {
      ProjectionKeepsKinds(h, spec, acts[..|acts| - 1]);
      var f := Seen(Run(h, spec, acts[..|acts| - 1]), acts[|acts| - 1]);
      assert f.Some? && f.value.Edit? ==> acts[|acts| - 1] == OfFunction(f.value);
    }
  }

  /** What happens later is seen later. */
  lemma {:induction false} ProjectionGoesOn(h: Hashes, spec: FunctionSpec, acts: seq<Action>, more: seq<Action>)
    ensures Projected(h, spec, acts) <= Projected(h, spec, acts + more)
    decreases |more|
  {
    if more == [] {
      assert acts + more == acts;
    } else {
      assert (acts + more)[..|acts + more| - 1] == acts + more[..|more| - 1];
      ProjectionGoesOn(h, spec, acts, more[..|more| - 1]);
      OneMoreSeen(h, spec, acts + more);
    }
  }

  lemma RestOf<T>(a: seq<T>, b: seq<T>) returns (rest: seq<T>)
    requires a <= b
    ensures a + rest == b
  {
    rest := b[|a|..];
  }

  lemma JointRunGoesOn(h: Hashes, spec: FunctionSpec, acts: seq<Action>, more: seq<Action>)
      returns (rest: seq<L.Action>)
    ensures Projected(h, spec, acts) + rest == Projected(h, spec, acts + more)
    ensures Run(h, spec, acts).worker == L.Run(h, spec, Projected(h, spec, acts))
    ensures Run(h, spec, acts + more).worker == L.Run(h, spec, Projected(h, spec, acts) + rest)
  {
    ProjectionGoesOn(h, spec, acts, more);
    rest := RestOf(Projected(h, spec, acts), Projected(h, spec, acts + more));
    JointRunIsARun(h, spec, acts);
    JointRunIsARun(h, spec, acts + more);
  }

  /** Main result: together with the Builder controllers, too, a last successful serving once on record is followed
      without a gap. */
  lemma RolloutLeavesNoGap(h: Hashes, spec: FunctionSpec, acts: seq<Action>, more: seq<Action>)
    requires AllMild(h, spec, acts + more) && KindsKept(spec, acts + more)
    requires Last(Run(h, spec, acts).worker.store.fn.status).Some?
    ensures var m := Run(h, spec, acts + more).worker;
      var n := NoGap.Answering(m);
      n.Some? && n.value in m.store.servings && n.value in m.log.ran
  {
    ProjectionIsMild(h, spec, acts + more);
    ProjectionKeepsKinds(h, spec, acts + more);
    var rest := JointRunGoesOn(h, spec, acts, more);
    NoGap.RolloutLeavesNoGap(h, spec, Projected(h, spec, acts), rest);
  }

  // ---------- The deadline of each builder ----------

  lemma DueForItsBuilder(part: Part, bs: seq<B.Action>, b: Builder, w: nat)
    requires part.machine == B.Run(part.p, bs) && Knows(b, part.p) && b.created >= 0
    requires w in part.machine.watches && part.machine.watches[w].due.Some? && part.machine.watches[w].retries == 0
    ensures b.spec.build.timeout.Some?
    ensures part.machine.watches[w].due == Some(b.created + b.spec.build.timeout.value)
  {
    B.TimersAreDueAtTheDeadline(part.p, bs, w);
  }

  /** Main result: in every joint run a builder's timer that was never reset is due when the timeout of its own build
      has passed since its own creation. */
  lemma TimersFollowTheBuild(h: Hashes, spec: FunctionSpec, acts: seq<Action>, j: Joint, n: Name, w: nat)
    requires j == Run(h, spec, acts) && n in j.worker.store.builders && n in j.parts
    requires w in j.parts[n].machine.watches
    requires j.worker.store.builders[n].created >= 0
    requires j.parts[n].machine.watches[w].due.Some? && j.parts[n].machine.watches[w].retries == 0
    ensures var b := j.worker.store.builders[n];
      && b.spec.build.timeout.Some?
      && j.parts[n].machine.watches[w].due == Some(b.created + b.spec.build.timeout.value)
  {
    PartKnowsItsBuilder(h, spec, acts, n);
    var bs := EachPartIsARun(h, spec, acts, n);
    DueForItsBuilder(j.parts[n], bs, j.worker.store.builders[n], w);
  }
}

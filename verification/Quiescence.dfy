/** Left alone, the Function controller comes to rest: from every state two undisturbed attempts are
    enough, and every further one changes nothing. */
module Quiescence {
  import opened Api
  import opened FunctionLogic
  import opened BuilderHistory
  import opened FunctionController

  /** Generated names are new. */
  ghost predicate Fresh(s: Store) {
    && (forall n :: n in s.builders ==> n < s.next)
    && (forall n :: n in s.servings ==> n < s.next)
  }

  /** Is the recorded builder there and at work? */
  predicate Follows(s: Store) {
    && Tracks(s.fn.status.build)
    && s.fn.status.build.value.ref.value in s.builders
    && s.builders[s.fn.status.build.value.ref.value].status.phase == BuildPhase
  }

  function Followed(s: Store): BuilderStatus
    requires Follows(s)
  {
    s.builders[s.fn.status.build.value.ref.value].status
  }

  ghost predicate WithinLimits(s: Store) {
    && |Class(s.builders, true)| <= Max(SuccessfulLimit(s.fn.spec), 0)
    && |Class(s.builders, false)| <= Max(FailedLimit(s.fn.spec), 0)
  }

  /** The builder part has nothing left to do: it waits for cancelled builders, or it has recorded
      everything and keeps no more builders than it may. */
  ghost predicate BuildQuiet(h: Hashes, s: Store) {
    if Needs(h, s) then
      && Unfinished(s.builders) != {}
      && ResetBuild(s.fn.status) == s.fn.status
      && CancelAll(s.builders) == s.builders
    else
      Follows(s) ==> !BuildChanged(s.fn.status.build.value, Followed(s)) && WithinLimits(s)
  }

  predicate ServingQuiet(h: Hashes, s: Store) {
    && !NeedServing(h, s.fn, Find(s.servings, Ref(s.fn.status.serving)))
    && FollowServing(s) == s
  }

  // ---------- Builder part ----------

  lemma LegalPruneWithinLimitsKeepsAll(s: Store, c: Choice)
    requires LegalChoice(s, c) && WithinLimits(s)
    ensures Restrict(s.builders, c.kept) == s.builders
  {
    KeepsClassWithinLimit(Class(s.builders, true), s.builders, c.kept, SuccessfulLimit(s.fn.spec));
    KeepsClassWithinLimit(Class(s.builders, false), s.builders, c.kept, FailedLimit(s.fn.spec));
    forall n | n in s.builders ensures n in c.kept {
      assert IsCompleted(s.builders[n].status.state) ==> n in Class(s.builders, true) || n in Class(s.builders, false);
    }
  }

  lemma QuietBuilderPartIsIdle(h: Hashes, s: Store, c: Choice)
    requires BuildQuiet(h, s) && LegalChoice(s, c)
    ensures BuilderPart(h, s, c) == s
  {
    if !Needs(h, s) && Follows(s) {
      LegalPruneWithinLimitsKeepsAll(s, c);
    }
  }

  lemma PruneComesWithinLimits(s: Store, c: Choice, f: Function)
    requires LegalChoice(s, c) && f.spec == s.fn.spec
    ensures WithinLimits(s.(fn := f, builders := Restrict(s.builders, c.kept)))
  {
    ClassAfterPrune(s.builders, c.kept, LimitsOf(s.fn.spec), true);
    ClassAfterPrune(s.builders, c.kept, LimitsOf(s.fn.spec), false);
  }

  lemma CancelAllTwice(bs: map<Name, Builder>)
    ensures CancelAll(CancelAll(bs)) == CancelAll(bs)
    ensures Unfinished(CancelAll(bs)) == Unfinished(bs)
  {
  }

  /** Whatever made a builder necessary, after starting over there is nothing to do but wait. */
  lemma RebuildComesToRest(h: Hashes, s: Store, c: Choice)
    requires Needs(h, s) && LegalChoice(s, c) && Fresh(s)
    ensures BuildQuiet(h, Rebuild(h, s, c))
    ensures s.fn.spec.build.Some? ==> !(Rebuild(h, s, c).fn.status.build.value.state in {Succeeded, Skipped})
  {
    CancelAllTwice(s.builders);
  }

  /** Following a builder comes to rest at once, unless pruning removed the followed builder before it succeeded. */
  lemma FollowComesToRest(h: Hashes, s: Store, c: Choice)
    requires !Needs(h, s) && LegalChoice(s, c)
    ensures var s' := FollowBuilder(s, c); BuildQuiet(h, s') || (Needs(h, s') && s.fn.spec.build.Some?)
  {
    var s' := FollowBuilder(s, c);
    if Follows(s) {
      PruneComesWithinLimits(s, c, s'.fn);
      assert s' == s.(fn := s'.fn, builders := Restrict(s.builders, c.kept));
    }
  }

  // ---------- Serving part ----------

  predicate BuildNotPending(st: FunctionStatus) {
    st.build.Some? ==> st.build.value.state in {Succeeded, Skipped}
  }

  lemma ServingPartLeavesBuild(h: Hashes, s: Store)
    ensures var s' := ServingPart(h, s);
      s'.builders == s.builders && s'.fn.spec == s.fn.spec && s'.fn.status.build == s.fn.status.build
    ensures BuildQuiet(h, s) ==> BuildQuiet(h, ServingPart(h, s))
    ensures Needs(h, s) ==> Needs(h, ServingPart(h, s))
  {
  }

  lemma RedeployComesToRest(h: Hashes, s: Store)
    requires Fresh(s)
    ensures ServingQuiet(h, Redeploy(h, s))
  {
    var s' := Redeploy(h, s);
    if s.fn.spec.serving.Some? {
      assert s'.fn.status.revision == s.fn.status.revision;
      assert CreateServingSpec(s'.fn) == s'.servings[s.next].spec;
    }
  }

  lemma FollowTwice(s: Store)
    ensures FollowServing(FollowServing(s)) == FollowServing(s)
  {
  }

  /** Following a serving comes to rest at once, unless its state was found to be empty. */
  lemma FollowServingComesToRest(h: Hashes, s: Store)
    requires !NeedServing(h, s.fn, Find(s.servings, Ref(s.fn.status.serving)))
    ensures var s' := FollowServing(s);
      || ServingQuiet(h, s')
      || (s'.fn.status.serving.Some? && s'.fn.status.serving.value.state == NoState && BuildNotPending(s.fn.status))
  {
    FollowTwice(s);
    var s' := FollowServing(s);
    assert CreateServingSpec(s'.fn) == CreateServingSpec(s.fn);
  }

  lemma ServingPartTwiceComesToRest(h: Hashes, s: Store)
    requires Fresh(s) && Fresh(ServingPart(h, s))
    ensures ServingQuiet(h, ServingPart(h, ServingPart(h, s)))
  {
    var s' := ServingPart(h, s);
    if NeedServing(h, s.fn, Find(s.servings, Ref(s.fn.status.serving))) {
      RedeployComesToRest(h, s);
    } else {
      FollowServingComesToRest(h, s);
      if !ServingQuiet(h, s') {
        assert NeedServing(h, s'.fn, Find(s'.servings, Ref(s'.fn.status.serving)));
        RedeployComesToRest(h, s');
      }
    }
  }

  /** While a build is not over the serving part only follows, and one round is enough. */
  lemma ServingPartDuringBuild(h: Hashes, s: Store)
    requires !BuildNotPending(s.fn.status)
    ensures ServingQuiet(h, ServingPart(h, s))
  {
    FollowServingComesToRest(h, s);
  }

  // ---------- Both ----------

  lemma AttemptKeepsFresh(h: Hashes, s: Store, c: Choice)
    requires Fresh(s)
    ensures Fresh(BuilderPart(h, s, c)) && Fresh(Attempt(h, s, c))
  {
    ServingPartKeepsFresh(h, BuilderPart(h, s, c));
  }

  lemma ServingPartKeepsFresh(h: Hashes, s: Store)
    requires Fresh(s)
    ensures Fresh(ServingPart(h, s))
  {
  }

  lemma TwoAttemptsComeToRest(h: Hashes, s: Store, c1: Choice, c2: Choice)
    requires Fresh(s) && LegalChoice(s, c1) && LegalChoice(Attempt(h, s, c1), c2)
    ensures var s2 := Attempt(h, Attempt(h, s, c1), c2); BuildQuiet(h, s2) && ServingQuiet(h, s2)
  {
    var b1 := BuilderPart(h, s, c1);
    var s1 := Attempt(h, s, c1);
    AttemptKeepsFresh(h, s, c1);
    ServingPartLeavesBuild(h, b1);
    if Needs(h, s) {
      RebuildComesToRest(h, s, c1);
    } else {
      FollowComesToRest(h, s, c1);
    }
    if BuildQuiet(h, b1) {
      QuietBuilderPartIsIdle(h, s1, c2);
      ServingPartTwiceComesToRest(h, b1);
      ServingPartLeavesBuild(h, s1);
    } else {
      RebuildComesToRest(h, s1, c2);
      var b2 := BuilderPart(h, s1, c2);
      ServingPartDuringBuild(h, b2);
      ServingPartLeavesBuild(h, b2);
    }
  }

  /** Main result: with no failures and nobody else acting, a third attempt changes nothing, whatever the
      state was and whichever builders each pruning chose to keep within the limits. */
  lemma ThirdAttemptIsIdle(h: Hashes, s: Store, c1: Choice, c2: Choice, c3: Choice)
    requires Fresh(s)
    ensures var s1 := Attempt(h, s, c1);
      var s2 := Attempt(h, s1, c2);
      LegalChoice(s, c1) && LegalChoice(s1, c2) && LegalChoice(s2, c3) ==> Attempt(h, s2, c3) == s2
  {
    var s1 := Attempt(h, s, c1);
    var s2 := Attempt(h, s1, c2);
    if LegalChoice(s, c1) && LegalChoice(s1, c2) && LegalChoice(s2, c3) {
      TwoAttemptsComeToRest(h, s, c1, c2);
      QuietBuilderPartIsIdle(h, s2, c3);
    }
  }
}

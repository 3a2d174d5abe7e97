/** How many builders a function ever gets: one, and one more for each edit that concerns its build,
    provided attempts are not interleaved with the end of a build. */
module RebuildBound {
  import opened Api
  import opened FunctionLogic
  import opened BuilderHistory
  import opened FunctionController
  import opened Quiescence

  datatype Event =
    | Reconcile(c: Choice)
    | Edit(spec: FunctionSpec)
    | BuilderMoves(name: Name, builderStatus: BuilderStatus)
    | ServingMoves(name: Name, servingStatus: ServingStatus)
    | ServingGone(name: Name)

  /** The store, the names of all builders there ever were, and how many edits concerned the build. */
  datatype Tally = Tally(store: Store, ever: set<Name>, edits: nat)

  function Start(spec: FunctionSpec): Tally {
    Tally(Store(Function(spec, FunctionStatus(None, None, None), 0), map[], map[], 0), {}, 0)
  }

  /** Creation times grow, a failed build may stay, and builders move as their controller moves them. */
  ghost predicate Legal(s: Store, e: Event) {
    match e
    case Reconcile(c) => LegalChoice(s, c) && forall n :: n in s.builders ==> s.builders[n].created < c.at
    case Edit(spec) => FailedLimit(spec) >= 1
    case BuilderMoves(n, st) => n in s.builders && MayFollow(s.builders[n].status, st)
    case ServingMoves(n, _) => n in s.servings
    case ServingGone(_) => true
  }

  ghost function Effect(h: Hashes, s: Store, e: Event): Store
    requires Legal(s, e)
  {
    match e
    case Reconcile(c) => Attempt(h, s, c)
    case Edit(spec) => s.(fn := WithSpec(s.fn, spec))
    case BuilderMoves(n, st) => s.(builders := s.builders[n := WithBuilderStatus(s.builders[n], st)])
    case ServingMoves(n, st) =>
      s.(servings := s.servings[n := s.servings[n].(status := st, version := s.servings[n].version + 1)])
    case ServingGone(n) => s.(servings := s.servings - {n})
  }

  ghost function Step(h: Hashes, t: Tally, e: Event): Tally
    requires Legal(t.store, e)
  {
    var s := Effect(h, t.store, e);
    Tally(s, t.ever + s.builders.Keys, t.edits + if Concerns(h, t.store.fn.spec, s.fn.spec) then 1 else 0)
  }

  /** The tallies along a history that begins with a new function. */
  ghost predicate History(h: Hashes, ts: seq<Tally>, es: seq<Event>) {
    && |ts| == |es| + 1
    && ts[0].store.fn.status == FunctionStatus(None, None, None)
    && ts[0] == Start(ts[0].store.fn.spec)
    && FailedLimit(ts[0].store.fn.spec) >= 1
    && forall i :: 0 <= i < |es| ==> Legal(ts[i].store, es[i]) && ts[i + 1] == Step(h, ts[i], es[i])
  }

  // ---------- What an attempt does to the need for a builder ----------

  /** The recorded builder, if it still exists, is the newest. */
  ghost predicate RecordedIsNewest(s: Store) {
    var ref := Ref(s.fn.status.build);
    ref.Some? && ref.value in s.builders ==>
      forall m :: m in s.builders && m != ref.value ==> s.builders[m].created < s.builders[ref.value].created
  }

  /** Exactly when an undisturbed attempt that finds its builder in order leaves it missing: the builder has
      finished without success and pruning gave it up. */
  lemma WhenFollowingLosesTheBuilder(h: Hashes, s: Store, c: Choice)
    requires !Needs(h, s) && LegalChoice(s, c)
    ensures Needs(h, FollowBuilder(s, c)) <==>
      && s.fn.spec.build.Some?
      && Follows(s)
      && Followed(s).state != Succeeded
      && s.fn.status.build.value.ref.value !in c.kept
  {
  }

  lemma FollowingKeepsTheNewest(h: Hashes, s: Store, c: Choice)
    requires !Needs(h, s) && LegalChoice(s, c) && RecordedIsNewest(s) && FailedLimit(s.fn.spec) >= 1
    ensures !Needs(h, FollowBuilder(s, c))
  {
    WhenFollowingLosesTheBuilder(h, s, c);
    if Follows(s) && Followed(s).state != Succeeded {
      NewestSurvives(s.builders, c.kept, LimitsOf(s.fn.spec), s.fn.status.build.value.ref.value);
    }
  }

  ghost predicate Inv(h: Hashes, t: Tally) {
    && Fresh(t.store)
    && (forall n :: n in t.ever ==> n < t.store.next)
    && RecordedIsNewest(t.store)
    && FailedLimit(t.store.fn.spec) >= 1
    && |t.ever| + (if Needs(h, t.store) then 1 else 0) <= 1 + t.edits
    && t.store.builders.Keys <= t.ever
  }

  /** An attempt creates a builder only when one is needed, and then none is needed any more. */
  lemma BuilderPartCreates(h: Hashes, s: Store, c: Choice)
    requires Fresh(s) && LegalChoice(s, c) && RecordedIsNewest(s) && FailedLimit(s.fn.spec) >= 1
    ensures var s' := BuilderPart(h, s, c);
      && s'.builders.Keys <= s.builders.Keys + {s.next}
      && (s.next in s'.builders ==> Needs(h, s))
      && (Needs(h, s') ==> Needs(h, s) && s.next !in s'.builders)
  {
    if Needs(h, s) {
      CancelAllTwice(s.builders);
    } else {
      FollowingKeepsTheNewest(h, s, c);
    }
  }

  lemma BuilderPartKeepsNewest(h: Hashes, s: Store, c: Choice)
    requires Fresh(s) && RecordedIsNewest(s)
    requires forall n :: n in s.builders ==> s.builders[n].created < c.at
    ensures RecordedIsNewest(BuilderPart(h, s, c))
  {
  }

  /** Everything the tally depends on, for a whole attempt. */
  lemma AttemptCreates(h: Hashes, s: Store, c: Choice)
    requires Fresh(s) && LegalChoice(s, c) && RecordedIsNewest(s) && FailedLimit(s.fn.spec) >= 1
    requires forall n :: n in s.builders ==> s.builders[n].created < c.at
    ensures var s' := Attempt(h, s, c);
      && Fresh(s') && RecordedIsNewest(s') && s'.fn.spec == s.fn.spec
      && s.next <= s'.next
      && s'.builders.Keys <= s.builders.Keys + {s.next}
      && (s.next in s'.builders ==> Needs(h, s) && s.next < s'.next)
      && (Needs(h, s') ==> Needs(h, s) && s.next !in s'.builders)
  {
    BuilderPartCreates(h, s, c);
    BuilderPartKeepsNewest(h, s, c);
    AttemptKeepsFresh(h, s, c);
    NeedUnmovedByServingPart(h, BuilderPart(h, s, c));
    NextNeverFalls(h, s, c);
    SpecIsTheUsers(h, s, c);
  }

  lemma SpecIsTheUsers(h: Hashes, s: Store, c: Choice)
    ensures BuilderPart(h, s, c).fn.spec == s.fn.spec
  {
  }

  lemma GrowsByOne(ever: set<Name>, before: set<Name>, after: set<Name>, n: Name)
    requires before <= ever && after <= before + {n} && n !in ever
    ensures |ever + after| == |ever| + if n in after then 1 else 0
  {
    assert ever + after == ever + (if n in after then {n} else {});
  }

  lemma ReconcileKeepsInv(h: Hashes, t: Tally, c: Choice)
    requires Inv(h, t) && Legal(t.store, Reconcile(c))
    ensures Inv(h, Step(h, t, Reconcile(c)))
  {
    AttemptCreates(h, t.store, c);
    GrowsByOne(t.ever, t.store.builders.Keys, Attempt(h, t.store, c).builders.Keys, t.store.next);
  }

  lemma NextNeverFalls(h: Hashes, s: Store, c: Choice)
    ensures var s' := Attempt(h, s, c);
      s.next <= s'.next && (s.next in s'.builders && s.next !in s.builders ==> s.next < s'.next)
  {
    BuilderPartNeverFalls(h, s, c);
    ServingPartNeverFalls(h, BuilderPart(h, s, c));
  }

  lemma BuilderPartNeverFalls(h: Hashes, s: Store, c: Choice)
    ensures var s' := BuilderPart(h, s, c);
      s.next <= s'.next && (s.next in s'.builders && s.next !in s.builders ==> s.next < s'.next)
  {
  }

  lemma ServingPartNeverFalls(h: Hashes, s: Store)
    ensures s.next <= ServingPart(h, s).next && ServingPart(h, s).builders == s.builders
  {
  }

  lemma NeedUnmovedByServingPart(h: Hashes, s: Store)
    ensures var s' := ServingPart(h, s);
      s'.builders == s.builders && s'.fn.spec == s.fn.spec && s'.fn.status.build == s.fn.status.build
    ensures Needs(h, ServingPart(h, s)) == Needs(h, s)
  {
  }

  lemma EditKeepsInv(h: Hashes, t: Tally, spec: FunctionSpec)
    requires Inv(h, t) && Legal(t.store, Edit(spec))
    ensures Inv(h, Step(h, t, Edit(spec)))
  {
    var t' := Step(h, t, Edit(spec));
    assert t'.ever == t.ever;
  }

  lemma BuilderMovesKeepsInv(h: Hashes, t: Tally, n: Name, st: BuilderStatus)
    requires Inv(h, t) && Legal(t.store, BuilderMoves(n, st))
    ensures Inv(h, Step(h, t, BuilderMoves(n, st)))
  {
    var s' := Effect(h, t.store, BuilderMoves(n, st));
    assert s'.builders.Keys == t.store.builders.Keys;
    assert t.ever + s'.builders.Keys == t.ever;
    assert Needs(h, s') == Needs(h, t.store);
  }

  lemma ServingEventKeepsInv(h: Hashes, t: Tally, e: Event)
    requires Inv(h, t) && Legal(t.store, e)
    requires e.ServingMoves? || e.ServingGone?
    ensures Inv(h, Step(h, t, e))
  {
    assert t.ever + t.store.builders.Keys == t.ever;
    assert Needs(h, Effect(h, t.store, e)) == Needs(h, t.store);
  }

  lemma {:induction false} HistoryKeepsInv(h: Hashes, ts: seq<Tally>, es: seq<Event>, i: nat)
    requires History(h, ts, es) && i <= |es|
    ensures Inv(h, ts[i])
  {
    if i > 0 {
      HistoryKeepsInv(h, ts, es, i - 1);
      match es[i - 1]
      case Reconcile(c) => ReconcileKeepsInv(h, ts[i - 1], c);
      case Edit(spec) => EditKeepsInv(h, ts[i - 1], spec);
      case BuilderMoves(n, st) => BuilderMovesKeepsInv(h, ts[i - 1], n, st);
      case _ => ServingEventKeepsInv(h, ts[i - 1], es[i - 1]);
    }
  }

  /** Main result: however long a history of undisturbed attempts, edits and progress is, there were never
      more builders than one plus the number of edits that concerned the build. */
  lemma BuildersAreBounded(h: Hashes, ts: seq<Tally>, es: seq<Event>)
    requires History(h, ts, es)
    ensures |ts[|es|].ever| <= 1 + ts[|es|].edits
  {
    HistoryKeepsInv(h, ts, es, |es|);
  }
}

/** Which builders of a function survive pruning: every one that is still building, and of the
    succeeded and of the other finished ones the newest few, ties in the order they were listed. */
module BuilderHistory {
  import opened Api

  function FailedLimit(spec: FunctionSpec): int {
    if spec.build.Some? && spec.build.value.failedLimit.Some? then spec.build.value.failedLimit.value else 1
  }

  function SuccessfulLimit(spec: FunctionSpec): int {
    if spec.build.Some? && spec.build.value.successfulLimit.Some? then spec.build.value.successfulLimit.value else 0
  }

  datatype Limits = Limits(failed: int, successful: int) {
    function For(succeeded: bool): int {
      if succeeded then successful else failed
    }
  }

  function LimitsOf(spec: FunctionSpec): Limits {
    Limits(FailedLimit(spec), SuccessfulLimit(spec))
  }

  predicate Done(b: Builder, succeeded: bool) {
    IsCompleted(b.status.state) && (b.status.state == Succeeded) == succeeded
  }

  /** The finished builders of one class. */
  function Class(bs: map<Name, Builder>, succeeded: bool): set<Name> {
    set n | n in bs && Done(bs[n], succeeded)
  }

  predicate Distinct(order: seq<Name>) {
    forall i, j | 0 <= i < j < |order| :: order[i] != order[j]
  }

  /** A listing of the builders: each of them once, in any order. */
  ghost predicate Lists(order: seq<Name>, bs: map<Name, Builder>) {
    && Distinct(order)
    && (forall n :: n in order <==> n in bs)
  }

  /** `m` comes before `n` when the newest come first and ties stay in listing order. */
  predicate Beats(bs: map<Name, Builder>, order: seq<Name>, m: Name, n: Name)
    requires m in bs && n in bs
  {
    || bs[m].created > bs[n].created
    || (bs[m].created == bs[n].created && Precedes(order, m, n))
  }

  predicate Precedes(order: seq<Name>, m: Name, n: Name) {
    exists i, j :: 0 <= i < j < |order| && order[i] == m && order[j] == n
  }

  /** Those of n's class that come before n. */
  function Better(bs: map<Name, Builder>, order: seq<Name>, n: Name): set<Name>
    requires n in bs
  {
    set m | m in Class(bs, bs[n].status.state == Succeeded) && Beats(bs, order, m, n)
  }

  /** The builders that survive: unfinished, or beaten by fewer than the limit of their class. */
  function Survivors(bs: map<Name, Builder>, order: seq<Name>, limits: Limits): set<Name> {
    set n | n in bs &&
      (IsCompleted(bs[n].status.state) ==> |Better(bs, order, n)| < limits.For(bs[n].status.state == Succeeded))
  }

  function Min(a: int, b: int): int {
    if a < b then a else b
  }

  function Max(a: int, b: int): int {
    if a < b then b else a
  }

  function Restrict(bs: map<Name, Builder>, kept: set<Name>): map<Name, Builder> {
    map n | n in bs && n in kept :: bs[n]
  }

  /** What any pruning must achieve, whatever the listing order was. */
  ghost predicate LegalPrune(bs: map<Name, Builder>, kept: set<Name>, limits: Limits) {
    && kept <= bs.Keys
    && (forall n :: n in bs && !IsCompleted(bs[n].status.state) ==> n in kept)
    && LegalFor(Class(bs, true), bs, kept, limits.successful)
    && LegalFor(Class(bs, false), bs, kept, limits.failed)
  }

  /** Of one class as many are kept as the limit allows, and none that is older than one given up. */
  ghost predicate LegalFor(all: set<Name>, bs: map<Name, Builder>, kept: set<Name>, limit: int)
    requires all <= bs.Keys
  {
    && |all * kept| == Min(Max(limit, 0), |all|)
    && (forall k, d :: k in all && k in kept && d in all && d !in kept ==> bs[k].created >= bs[d].created)
  }

  // ---------- The stable sort that puts the newest first ----------

  /** Put n behind everything that is at least as new. */
  function Insert(bs: map<Name, Builder>, sorted: seq<Name>, n: Name): (r: seq<Name>)
    requires n in bs && forall m | m in sorted :: m in bs
    ensures forall m :: m in r <==> m == n || m in sorted
  {
    if sorted == [] then [n]
    else
      var k := |sorted| - 1;
      if bs[sorted[k]].created >= bs[n].created then sorted + [n]
      else Insert(bs, sorted[..k], n) + [sorted[k]]
  }

  function NewestFirst(bs: map<Name, Builder>, order: seq<Name>): (r: seq<Name>)
    requires forall m | m in order :: m in bs
    ensures forall m :: m in r <==> m in order
  {
    if order == [] then []
    else Insert(bs, NewestFirst(bs, order[..|order| - 1]), order[|order| - 1])
  }

  ghost predicate SortedByBeats(bs: map<Name, Builder>, order: seq<Name>, s: seq<Name>) {
    && (forall m | m in s :: m in bs)
    && (forall i, j | 0 <= i < j < |s| :: Beats(bs, order, s[i], s[j]))
  }

  lemma PrecedesGrows(order: seq<Name>, last: Name, m: Name, n: Name)
    ensures Precedes(order, m, n) ==> Precedes(order + [last], m, n)
    ensures m in order ==> Precedes(order + [last], m, last)
  {
    var longer := order + [last];
    if Precedes(order, m, n) {
      var i, j :| 0 <= i < j < |order| && order[i] == m && order[j] == n;
      assert longer[i] == m && longer[j] == n;
    }
    if m in order {
      var i :| 0 <= i < |order| && order[i] == m;
      assert longer[i] == m && longer[|order|] == last;
    }
  }

  lemma {:induction false} InsertKeepsSorted(bs: map<Name, Builder>, order: seq<Name>, sorted: seq<Name>, n: Name)
    requires n in bs
    requires SortedByBeats(bs, order, sorted)
    requires forall m | m in sorted :: m in order
    ensures SortedByBeats(bs, order + [n], Insert(bs, sorted, n))
  {
    var longer := order + [n];
    forall i, j | 0 <= i < j < |sorted| ensures Beats(bs, longer, sorted[i], sorted[j]) {
      assert Beats(bs, order, sorted[i], sorted[j]);
      PrecedesGrows(order, n, sorted[i], sorted[j]);
    }
    if sorted != [] {
      var k := |sorted| - 1;
      var r := Insert(bs, sorted, n);
      if bs[sorted[k]].created >= bs[n].created {
        forall i | 0 <= i < |sorted| ensures Beats(bs, longer, sorted[i], n) {
          assert i == k || Beats(bs, order, sorted[i], sorted[k]);
          PrecedesGrows(order, n, sorted[i], n);
        }
      } else {
        assert SortedByBeats(bs, order, sorted[..k]);
        InsertKeepsSorted(bs, order, sorted[..k], n);
        var front := Insert(bs, sorted[..k], n);
        assert r == front + [sorted[k]];
        forall i | 0 <= i < |front| ensures Beats(bs, longer, front[i], sorted[k]) {
          assert front[i] in front;
          if front[i] != n {
            assert front[i] in sorted[..k];
          }
        }
      }
    }
  }

  lemma {:induction false} NewestFirstIsSorted(bs: map<Name, Builder>, order: seq<Name>)
    requires forall m | m in order :: m in bs
    ensures SortedByBeats(bs, order, NewestFirst(bs, order))
  {
    if order != [] {
      var front := order[..|order| - 1];
      NewestFirstIsSorted(bs, front);
      InsertKeepsSorted(bs, front, NewestFirst(bs, front), order[|order| - 1]);
      assert front + [order[|order| - 1]] == order;
    }
  }

  // ---------- Beats is a strict order, so a sorted listing tells each builder's rank ----------

  lemma BeatsIsAsymmetric(bs: map<Name, Builder>, order: seq<Name>, m: Name, n: Name)
    requires Distinct(order) && m in bs && n in bs
    ensures !(Beats(bs, order, m, n) && Beats(bs, order, n, m))
  {
  }

  /** The names of one class among the first entries. */
  function Seen(bs: map<Name, Builder>, s: seq<Name>, succeeded: bool): set<Name> {
    set m | m in s && m in bs && Done(bs[m], succeeded)
  }

  lemma SortedIsDistinct(bs: map<Name, Builder>, order: seq<Name>, s: seq<Name>)
    requires Distinct(order) && SortedByBeats(bs, order, s)
    ensures Distinct(s)
  {
    forall i, j | 0 <= i < j < |s| ensures s[i] != s[j] {
      assert Beats(bs, order, s[i], s[j]);
      BeatsIsAsymmetric(bs, order, s[i], s[j]);
    }
  }

  lemma BetterIsSeenBefore(bs: map<Name, Builder>, order: seq<Name>, s: seq<Name>, k: nat)
    requires Lists(order, bs) && SortedByBeats(bs, order, s)
    requires forall n :: n in s <==> n in bs
    requires k < |s|
    ensures Better(bs, order, s[k]) == Seen(bs, s[..k], bs[s[k]].status.state == Succeeded)
  {
    var c := bs[s[k]].status.state == Succeeded;
    forall m | m in Better(bs, order, s[k]) ensures m in Seen(bs, s[..k], c) {
      var i :| 0 <= i < |s| && s[i] == m;
      if i >= k {
        assert i == k || Beats(bs, order, s[k], s[i]);
        BeatsIsAsymmetric(bs, order, m, s[k]);
      }
      assert s[..k][i] == m;
    }
    forall m | m in Seen(bs, s[..k], c) ensures m in Better(bs, order, s[k]) {
      var i :| 0 <= i < |s[..k]| && s[..k][i] == m;
      assert Beats(bs, order, s[i], s[k]);
    }
  }

  lemma SeenGrows(bs: map<Name, Builder>, s: seq<Name>, k: nat, c: bool)
    requires k < |s| && Distinct(s) && s[k] in bs
    ensures Seen(bs, s[..k + 1], c) == Seen(bs, s[..k], c) + (if Done(bs[s[k]], c) then {s[k]} else {})
    ensures s[k] !in Seen(bs, s[..k], c)
    ensures |Seen(bs, s[..k + 1], c)| == |Seen(bs, s[..k], c)| + (if Done(bs[s[k]], c) then 1 else 0)
  {
    assert s[..k + 1] == s[..k] + [s[k]];
    assert s[k] !in s[..k];
    AddOne(Seen(bs, s[..k], c), Seen(bs, s[..k + 1], c), s[k], Done(bs[s[k]], c));
  }

  lemma AddOne(before: set<Name>, after: set<Name>, n: Name, added: bool)
    requires n !in before && after == before + (if added then {n} else {})
    ensures |after| == |before| + (if added then 1 else 0)
  {
  }

  // ---------- The survivors form a legal pruning ----------

  /** Whether the k-th of a sorted listing survives depends only on how many of its class precede it. */
  lemma SurvivesByRank(bs: map<Name, Builder>, order: seq<Name>, s: seq<Name>, limits: Limits, k: nat)
    requires Lists(order, bs) && SortedByBeats(bs, order, s)
    requires forall n :: n in s <==> n in bs
    requires k < |s|
    ensures s[k] in Survivors(bs, order, limits) <==>
      (IsCompleted(bs[s[k]].status.state) ==>
        var c := bs[s[k]].status.state == Succeeded; |Seen(bs, s[..k], c)| < limits.For(c))
  {
    BetterIsSeenBefore(bs, order, s, k);
  }

  lemma {:induction false} SurvivorsAmongFirst(bs: map<Name, Builder>, order: seq<Name>, s: seq<Name>, limits: Limits,
                                               c: bool, k: nat)
    requires Lists(order, bs) && SortedByBeats(bs, order, s) && Distinct(s)
    requires forall n :: n in s <==> n in bs
    requires k <= |s|
    ensures |Seen(bs, s[..k], c) * Survivors(bs, order, limits)| == Min(Max(limits.For(c), 0), |Seen(bs, s[..k], c)|)
  {
    var kept := Survivors(bs, order, limits);
    if k == 0 {
      assert Seen(bs, s[..0], c) * kept == {};
    } else {
      SurvivorsAmongFirst(bs, order, s, limits, c, k - 1);
      SurvivesByRank(bs, order, s, limits, k - 1);
      OneMoreSurvivor(bs, s, kept, c, limits.For(c), k - 1);
    }
  }

  lemma OneMoreSurvivor(bs: map<Name, Builder>, s: seq<Name>, kept: set<Name>, c: bool, limit: int, k: nat)
    requires k < |s| && Distinct(s) && s[k] in bs
    requires Done(bs[s[k]], c) ==> (s[k] in kept <==> |Seen(bs, s[..k], c)| < limit)
    requires |Seen(bs, s[..k], c) * kept| == Min(Max(limit, 0), |Seen(bs, s[..k], c)|)
    ensures |Seen(bs, s[..k + 1], c) * kept| == Min(Max(limit, 0), |Seen(bs, s[..k + 1], c)|)
  {
    SeenGrows(bs, s, k, c);
    OneMore(Seen(bs, s[..k], c), Seen(bs, s[..k + 1], c), kept, s[k], Done(bs[s[k]], c));
  }

  /** Intersecting with a fixed set after adding one new element, or none. */
  lemma OneMore(before: set<Name>, after: set<Name>, kept: set<Name>, n: Name, added: bool)
    requires n !in before && after == before + (if added then {n} else {})
    ensures |after * kept| == |before * kept| + (if added && n in kept then 1 else 0)
  {
    if added && n in kept {
      assert after * kept == before * kept + {n};
    } else {
      assert after * kept == before * kept;
    }
  }

  lemma SurvivorsOfClassAreLegal(bs: map<Name, Builder>, order: seq<Name>, s: seq<Name>, limits: Limits, c: bool)
    requires Lists(order, bs) && SortedByBeats(bs, order, s) && Distinct(s)
    requires forall n :: n in s <==> n in bs
    ensures LegalFor(Class(bs, c), bs, Survivors(bs, order, limits), limits.For(c))
  {
    var kept := Survivors(bs, order, limits);
    SurvivorsAmongFirst(bs, order, s, limits, c, |s|);
    assert s[..|s|] == s;
    assert Seen(bs, s, c) == Class(bs, c);
    forall k, d | k in Class(bs, c) && k in kept && d in Class(bs, c) && d !in kept
      ensures bs[k].created >= bs[d].created
    {
      SurvivorIsNoOlder(bs, order, s, limits, c, k, d);
    }
  }

  lemma SurvivorIsNoOlder(bs: map<Name, Builder>, order: seq<Name>, s: seq<Name>, limits: Limits, c: bool,
                          k: Name, d: Name)
    requires Lists(order, bs) && SortedByBeats(bs, order, s)
    requires forall n :: n in s <==> n in bs
    requires k in Class(bs, c) && d in Class(bs, c)
    requires k in Survivors(bs, order, limits) && d !in Survivors(bs, order, limits)
    ensures bs[k].created >= bs[d].created
  {
    var i :| 0 <= i < |s| && s[i] == k;
    var j :| 0 <= j < |s| && s[j] == d;
    SurvivesByRank(bs, order, s, limits, i);
    SurvivesByRank(bs, order, s, limits, j);
    SeenIsMonotone(bs, s, j, i, c);
    assert i != j;
    assert Beats(bs, order, s[i], s[j]);
  }

  lemma SeenIsMonotone(bs: map<Name, Builder>, s: seq<Name>, j: nat, i: nat, c: bool)
    requires i < |s| && j < |s|
    ensures j < i ==> |Seen(bs, s[..j], c)| <= |Seen(bs, s[..i], c)|
  {
    if j < i {
      assert s[..j] <= s[..i];
      SubsetIsNoLarger(Seen(bs, s[..j], c), Seen(bs, s[..i], c));
    }
  }

  /** Main result on pruning: the survivors are a legal pruning for every listing order. */
  lemma SurvivorsAreLegal(bs: map<Name, Builder>, order: seq<Name>, limits: Limits)
    requires Lists(order, bs)
    ensures LegalPrune(bs, Survivors(bs, order, limits), limits)
  {
    var s := NewestFirst(bs, order);
    NewestFirstIsSorted(bs, order);
    SortedIsDistinct(bs, order, s);
    SurvivorsOfClassAreLegal(bs, order, s, limits, true);
    SurvivorsOfClassAreLegal(bs, order, s, limits, false);
  }

  lemma SubsetIsNoLarger<T>(a: set<T>, b: set<T>)
    requires a <= b
    ensures |a| <= |b|
  {
    assert b == a + (b - a);
  }

  lemma EqualWhenAsLarge<T>(a: set<T>, b: set<T>)
    requires a <= b && |a| >= |b|
    ensures a == b
  {
    assert b == a + (b - a);
  }

  lemma ClassAfterPrune(bs: map<Name, Builder>, kept: set<Name>, limits: Limits, c: bool)
    requires LegalPrune(bs, kept, limits)
    ensures Class(Restrict(bs, kept), c) == Class(bs, c) * kept
    ensures |Class(Restrict(bs, kept), c)| <= Max(limits.For(c), 0)
  {
    assert Class(Restrict(bs, kept), c) == Class(bs, c) * kept;
  }

  lemma KeepsClassWithinLimit(all: set<Name>, bs: map<Name, Builder>, kept: set<Name>, limit: int)
    requires all <= bs.Keys && LegalFor(all, bs, kept, limit)
    requires |all| <= Max(limit, 0)
    ensures all <= kept
  {
    EqualWhenAsLarge(all * kept, all);
  }

  /** A second pruning with the same limits removes nothing, whatever order the list comes in. */
  lemma SecondPruneKeepsAll(bs: map<Name, Builder>, kept: set<Name>, again: set<Name>, limits: Limits)
    requires LegalPrune(bs, kept, limits)
    requires LegalPrune(Restrict(bs, kept), again, limits)
    ensures again == kept && Restrict(Restrict(bs, kept), again) == Restrict(bs, kept)
  {
    var left := Restrict(bs, kept);
    assert left.Keys == kept;
    forall n | n in left ensures n in again {
      KeptAgain(bs, kept, again, limits, n);
    }
    assert again == left.Keys;
    RestrictToAll(left);
  }

  lemma RestrictToAll(bs: map<Name, Builder>)
    ensures Restrict(bs, bs.Keys) == bs
  {
  }

  lemma KeptAgain(bs: map<Name, Builder>, kept: set<Name>, again: set<Name>, limits: Limits, n: Name)
    requires LegalPrune(bs, kept, limits) && n in Restrict(bs, kept)
    requires LegalPrune(Restrict(bs, kept), again, limits)
    ensures n in again
  {
    var left := Restrict(bs, kept);
    if IsCompleted(left[n].status.state) {
      var c := left[n].status.state == Succeeded;
      ClassAfterPrune(bs, kept, limits, c);
      assert n in Class(left, c);
      KeepsClassWithinLimit(Class(left, c), left, again, limits.For(c));
    }
  }

  /** With at least one place for its class, the strictly newest builder survives. */
  lemma NewestSurvives(bs: map<Name, Builder>, kept: set<Name>, limits: Limits, n: Name)
    requires LegalPrune(bs, kept, limits) && n in bs
    requires limits.For(bs[n].status.state == Succeeded) >= 1
    requires forall m | m in bs && m != n :: bs[m].created < bs[n].created
    ensures n in kept
  {
    if IsCompleted(bs[n].status.state) {
      var c := bs[n].status.state == Succeeded;
      SubsetIsNoLarger({n}, Class(bs, c));
      var k :| k in Class(bs, c) * kept;
    }
  }

  /** Those of the builders that are in one of these states. */
  function InState(bs: map<Name, Builder>, states: set<State>): set<Name> {
    set n | n in bs && bs[n].status.state in states
  }

  const ENDED_OTHERWISE := {Created, Starting, Running, Failed, Skipped, Timeout, Canceled}

  /** Main result in the terms of the specification: all unfinished builders stay; of the succeeded ones as many as the
      successful limit says, or none without one; of the others as many as the failed limit says, or one without one;
      and of each kind the newest. */
  lemma WhatIsKept(bs: map<Name, Builder>, kept: set<Name>, spec: FunctionSpec)
    requires LegalPrune(bs, kept, LimitsOf(spec))
    ensures kept <= bs.Keys && InState(bs, {NoState, Building}) <= kept
    ensures |InState(bs, {Succeeded}) * kept| == (
      if spec.build.None? || spec.build.value.successfulLimit.None? then 0
      else Min(Max(spec.build.value.successfulLimit.value, 0), |InState(bs, {Succeeded})|))
    ensures |InState(bs, ENDED_OTHERWISE) * kept| == (
      if spec.build.None? || spec.build.value.failedLimit.None? then Min(1, |InState(bs, ENDED_OTHERWISE)|)
      else Min(Max(spec.build.value.failedLimit.value, 0), |InState(bs, ENDED_OTHERWISE)|))
    ensures forall k, d, states :: states in {{Succeeded}, ENDED_OTHERWISE} ==>
      k in InState(bs, states) && k in kept && d in InState(bs, states) && d !in kept ==> bs[k].created >= bs[d].created
  {
    ClassesByState(bs);
    CountsAreKept(bs, kept, spec);
  }

  lemma ClassesByState(bs: map<Name, Builder>)
    ensures Class(bs, true) == InState(bs, {Succeeded}) && Class(bs, false) == InState(bs, ENDED_OTHERWISE)
  {
  }

  lemma CountsAreKept(bs: map<Name, Builder>, kept: set<Name>, spec: FunctionSpec)
    requires LegalPrune(bs, kept, LimitsOf(spec))
    ensures |InState(bs, {Succeeded}) * kept| == (
      if spec.build.None? || spec.build.value.successfulLimit.None? then 0
      else Min(Max(spec.build.value.successfulLimit.value, 0), |InState(bs, {Succeeded})|))
    ensures |InState(bs, ENDED_OTHERWISE) * kept| == (
      if spec.build.None? || spec.build.value.failedLimit.None? then Min(1, |InState(bs, ENDED_OTHERWISE)|)
      else Min(Max(spec.build.value.failedLimit.value, 0), |InState(bs, ENDED_OTHERWISE)|))
  {
    ClassesByState(bs);
  }

  /** Exactly when pruning may give up the strictly newest builder: it has finished, and there is no place at all
      for its class. */
  lemma WhenTheNewestMayGo(bs: map<Name, Builder>, order: seq<Name>, limits: Limits, n: Name)
    requires Lists(order, bs) && n in bs
    requires forall m | m in bs && m != n :: bs[m].created < bs[n].created
    ensures (exists kept :: LegalPrune(bs, kept, limits) && n !in kept) <==>
      IsCompleted(bs[n].status.state) && limits.For(bs[n].status.state == Succeeded) <= 0
  {
    var c := bs[n].status.state == Succeeded;
    SurvivorsAreLegal(bs, order, limits);
    if IsCompleted(bs[n].status.state) && limits.For(c) <= 0 {
      assert n !in Survivors(bs, order, limits);
    } else {
      forall kept | LegalPrune(bs, kept, limits) ensures n in kept {
        if IsCompleted(bs[n].status.state) {
          NewestSurvives(bs, kept, limits, n);
        }
      }
    }
  }
}

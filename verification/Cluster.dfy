/** The objects that running a serving or a builder creates, on an API server whose calls may fail. A failing
    call may have been refused, or its answer may have been lost after it took effect. */
module Cluster {
  import opened Api
  import opened ComponentNames

  datatype Kind = Job | Deployment | StatefulSet | ScaledJob | ScaledObject | Service | Component | Build | BuildRun

  datatype Key = Key(kind: Kind, name: string)

  /** The resource that controls an object. */
  datatype Owner = OfServing(name: string) | OfBuilder(name: string)

  /** What an object is for. */
  datatype Role = ForComponent(key: string) | ForWorkload | ForScaler | ForProxy | ForBuild | ForBuildRun

  type Labels = map<string, string>

  datatype Object = Object(owner: Owner, role: Role, labels: Labels)

  type Objects = map<Key, Object>

  datatype Outcome = Done | Refused | Lost

  const SERVING_LABEL := "openfunction.io/serving"
  const PROXY_LABEL := "openfunction.io/proxy"
  const BUILDER_LABEL := "openfunction.io/builder"

  predicate Labelled(o: Object, tag: string, value: string) {
    tag in o.labels && o.labels[tag] == value
  }

  /** Does cleaning up after `t` list an object of this kind with these labels? */
  predicate ListedAs(t: Owner, kind: Kind, o: Object) {
    match t
    case OfServing(name) =>
      || (kind !in {Build, BuildRun} && Labelled(o, SERVING_LABEL, name))
      || (kind == Deployment && Labelled(o, PROXY_LABEL, name))
    case OfBuilder(name) => kind in {Build, BuildRun} && Labelled(o, BUILDER_LABEL, name)
  }

  /** Does cleaning up after `t` delete this object? */
  predicate Swept(t: Owner, k: Key, o: Object) {
    ListedAs(t, k.kind, o) && t.name <= k.name
  }

  /** What cleaning up after `t` leaves. */
  function Remaining(t: Owner, objects: Objects): Objects {
    map k | k in objects && !Swept(t, k, objects[k]) :: objects[k]
  }

  predicate Within(small: Objects, big: Objects) {
    forall k :: k in small ==> k in big && small[k] == big[k]
  }

  predicate Between(low: Objects, objects: Objects, high: Objects) {
    Within(low, objects) && Within(objects, high)
  }

  // ---------- What must hold at every moment ----------

  /** `t` has at most one object in every role, and can clean up all it has. */
  ghost predicate Tidy(t: Owner, objects: Objects) {
    && (forall k :: k in objects && objects[k].owner == t ==> Swept(t, k, objects[k]))
    && (forall j, k ::
          j in objects && k in objects && objects[j].owner == t && objects[k].owner == t ==>
          objects[j].role == objects[k].role ==> j == k)
  }

  /** The objects of `t` are exactly those listed, each in its role. */
  ghost predicate Exactly(t: Owner, objects: Objects, refs: map<Role, Key>) {
    && (forall r :: r in refs ==> refs[r] in objects && objects[refs[r]].owner == t && objects[refs[r]].role == r)
    && (forall k :: k in objects && objects[k].owner == t ==> objects[k].role in refs && refs[objects[k].role] == k)
  }

  /** What has been added to `before` are objects of `t`, those listed, each in its role. */
  ghost predicate Added(t: Owner, before: Objects, objects: Objects, refs: map<Role, Key>) {
    && Within(before, objects)
    && (forall r :: r in refs ==>
          refs[r] in objects && refs[r] !in before && objects[refs[r]].owner == t && objects[refs[r]].role == r)
    && (forall k :: k in objects && k !in before ==>
          objects[k].owner == t && objects[k].role in refs && refs[objects[k].role] == k)
  }

  /** Nothing but objects of `t` has been added. */
  ghost predicate Extends(t: Owner, before: Objects, objects: Objects) {
    && Within(before, objects)
    && (forall k :: k in objects && k !in before ==> objects[k].owner == t && Swept(t, k, objects[k]))
  }

  /** From the `n`-th moment on. */
  predicate AllBetween(low: Objects, moments: seq<Objects>, n: nat, high: Objects) {
    forall i :: n <= i < |moments| ==> Between(low, moments[i], high)
  }

  ghost predicate AllTidy(t: Owner, moments: seq<Objects>, n: nat) {
    forall i :: n <= i < |moments| ==> Tidy(t, moments[i])
  }

  /** Cleaning up, so far: from `were` to `objects`, through the moments that `moments` adds to `past`. */
  predicate Sweeping(t: Owner, were: Objects, objects: Objects, past: seq<Objects>, moments: seq<Objects>) {
    && Between(Remaining(t, were), objects, were)
    && past <= moments && AllBetween(Remaining(t, were), moments, |past|, were)
  }

  lemma SweepingGoesOn(t: Owner, were: Objects, now: Objects, next: Objects,
                       past: seq<Objects>, moments: seq<Objects>, later: seq<Objects>)
    requires Sweeping(t, were, now, past, moments) && Sweeping(t, now, next, moments, later)
    ensures Sweeping(t, were, next, past, later)
  {
    assert Within(Remaining(t, were), Remaining(t, now));
    forall i | |past| <= i < |later| ensures Between(Remaining(t, were), later[i], were) {
      if i < |moments| {
        assert later[i] == moments[i];
      }
    }
  }

  /** Deleting things that are swept anyway is cleaning up. */
  lemma DeletingSwept(t: Owner, were: Objects, gone: set<Key>, objects: Objects,
                      past: seq<Objects>, moments: seq<Objects>)
    requires forall k :: k in gone && k in were ==> Swept(t, k, were[k])
    requires Between(were - gone, objects, were) && past <= moments
    requires AllBetween(were - gone, moments, |past|, were)
    ensures Sweeping(t, were, objects, past, moments)
  {
    assert Within(Remaining(t, were), were - gone);
    forall i | |past| <= i < |moments| ensures Between(Remaining(t, were), moments[i], were) {
    }
  }

  lemma WithinIsTidy(t: Owner, small: Objects, big: Objects)
    requires Within(small, big) && Tidy(t, big)
    ensures Tidy(t, small)
  {
  }

  lemma AllBetweenAreTidy(t: Owner, low: Objects, moments: seq<Objects>, n: nat, high: Objects)
    requires AllBetween(low, moments, n, high) && Tidy(t, high)
    ensures AllTidy(t, moments, n)
  {
    forall i | n <= i < |moments| ensures Tidy(t, moments[i]) {
      WithinIsTidy(t, moments[i], high);
    }
  }

  /** Once everything swept is gone nothing of a tidy owner is left. */
  lemma NothingRemains(t: Owner, objects: Objects)
    requires Tidy(t, objects)
    ensures Exactly(t, Remaining(t, objects), map[])
  {
  }

  /** Tidy now, and at every moment that `moments` adds to `past`. */
  ghost predicate TidySince(t: Owner, objects: Objects, past: seq<Objects>, moments: seq<Objects>) {
    Tidy(t, objects) && past <= moments && AllTidy(t, moments, |past|)
  }

  lemma TidyGoesOn(t: Owner, now: Objects, next: Objects, past: seq<Objects>, moments: seq<Objects>, later: seq<Objects>)
    requires TidySince(t, now, past, moments) && TidySince(t, next, moments, later)
    ensures TidySince(t, next, past, later)
  {
    forall i | |past| <= i < |later| ensures Tidy(t, later[i]) {
      if i < |moments| {
        assert later[i] == moments[i];
      }
    }
  }

  lemma SweepingIsTidy(t: Owner, were: Objects, objects: Objects, past: seq<Objects>, moments: seq<Objects>)
    requires Sweeping(t, were, objects, past, moments) && Tidy(t, were)
    ensures TidySince(t, objects, past, moments)
  {
    WithinIsTidy(t, objects, were);
    AllBetweenAreTidy(t, Remaining(t, were), moments, |past|, were);
  }

  /** What cleaning does not sweep is untouched, and only objects of `t` have been added. */
  ghost predicate Spared(t: Owner, were: Objects, objects: Objects) {
    && Within(Remaining(t, were), objects)
    && (forall k :: k in objects && !(k in were && objects[k] == were[k]) ==> objects[k].owner == t && Swept(t, k, objects[k]))
  }

  lemma SparedAgain(t: Owner, were: Objects, now: Objects, next: Objects)
    requires Spared(t, were, now) && Spared(t, now, next)
    ensures Spared(t, were, next)
  {
    assert Within(Remaining(t, were), Remaining(t, now));
  }

  lemma ExactlyIsTidy(t: Owner, before: Objects, objects: Objects, refs: map<Role, Key>)
    requires Exactly(t, before, map[]) && Extends(t, before, objects) && Exactly(t, objects, refs)
    ensures Tidy(t, objects)
  {
  }

  /** On a server that had no object of `t`, what has been added is all that `t` has. */
  lemma AddedIsExact(t: Owner, before: Objects, objects: Objects, refs: map<Role, Key>)
    requires Exactly(t, before, map[]) && Added(t, before, objects, refs)
    ensures Exactly(t, objects, refs)
  {
  }

  lemma AddedOneMore(t: Owner, before: Objects, objects: Objects, refs: map<Role, Key>, k: Key, o: Object)
    requires Added(t, before, objects, refs) && k !in objects && o.owner == t && o.role !in refs
    ensures Added(t, before, objects[k := o], refs[o.role := k])
  {
  }

  /** `t` had nothing, and has added only what cleaning sweeps. */
  ghost predicate Careful(t: Owner, before: Objects, objects: Objects) {
    Exactly(t, before, map[]) && Extends(t, before, objects)
  }

  lemma NothingAdded(t: Owner, objects: Objects)
    requires Exactly(t, objects, map[])
    ensures Added(t, objects, objects, map[]) && Careful(t, objects, objects)
  {
  }

  lemma CarefulIsTidy(t: Owner, before: Objects, objects: Objects, refs: map<Role, Key>)
    requires Careful(t, before, objects) && Added(t, before, objects, refs)
    ensures Tidy(t, objects)
  {
    AddedIsExact(t, before, objects, refs);
    ExactlyIsTidy(t, before, objects, refs);
  }

  lemma CarefulOneMore(t: Owner, before: Objects, objects: Objects, refs: map<Role, Key>, k: Key, o: Object)
    requires Careful(t, before, objects) && Added(t, before, objects, refs)
    requires k !in objects && o.owner == t && o.role !in refs && Swept(t, k, o)
    ensures Careful(t, before, objects[k := o]) && Tidy(t, objects[k := o])
  {
    AddedOneMore(t, before, objects, refs, k, o);
    CarefulIsTidy(t, before, objects[k := o], refs[o.role := k]);
  }

  // ---------- The server ----------

  class Server {
    const outcome: nat -> Outcome
    const suffix: nat -> string
    const limit: nat
    var objects: Objects
    var calls: nat
    /** The objects after every call so far. */
    ghost var moments: seq<Objects>

    constructor (outcome: nat -> Outcome, suffix: nat -> string, limit: nat, objects: Objects)
      ensures this.outcome == outcome && this.suffix == suffix && this.limit == limit
      ensures this.objects == objects && calls == 0 && moments == []
    {
      this.outcome, this.suffix, this.limit := outcome, suffix, limit;
      this.objects, calls, moments := objects, 0, [];
    }

    method List(kind: Kind, tag: string, value: string) returns (ok: bool, found: set<Key>)
      modifies this`calls
      ensures ok ==> found == set k | k in objects && k.kind == kind && Labelled(objects[k], tag, value)
      ensures !ok ==> found == {}
    {
      var result := outcome(calls);
      calls := calls + 1;
      if result != Done {
        return false, {};
      }
      found := set k | k in objects && k.kind == kind && Labelled(objects[k], tag, value);
      ok := true;
    }

    /** That there is no such object is no error. */
    method Delete(k: Key) returns (ok: bool)
      modifies this
      ensures objects == (if ok || outcome(old(calls)) == Lost then old(objects) - {k} else old(objects))
      ensures moments == old(moments) + [objects]
    {
      var result := outcome(calls);
      calls := calls + 1;
      if result != Refused {
        objects := objects - {k};
      }
      moments := moments + [objects];
      ok := result == Done;
    }

    /** A generated name that is taken already makes the call fail. */
    method Create(kind: Kind, base: string, o: Object) returns (ok: bool, k: Key)
      modifies this
      ensures k == Key(kind, Generated(base, suffix(old(calls)), limit))
      ensures objects == old(objects) || (k !in old(objects) && objects == old(objects)[k := o])
      ensures ok ==> k in objects && k !in old(objects)
      ensures moments == old(moments) + [objects]
      ensures calls == old(calls) + 1
    {
      var result := outcome(calls);
      k := Key(kind, Generated(base, suffix(calls), limit));
      calls := calls + 1;
      ok := result == Done && k !in objects;
      if result != Refused && k !in objects {
        objects := objects[k := o];
      }
      moments := moments + [objects];
    }

    /** Any reading on the way whose result does not matter here. */
    method Read() returns (ok: bool)
      modifies this`calls
    {
      ok := outcome(calls) == Done;
      calls := calls + 1;
    }

    /** Creates an object of `t` in a role that is still vacant: `refs` are the objects added to `before` so far.
        If cleaning will find it the server stays tidy, even if the call fails. */
    method CreateFor(t: Owner, kind: Kind, tail: string, o: Object, ghost before: Objects, ghost refs: map<Role, Key>)
        returns (ok: bool, k: Key)
      requires o.owner == t && o.role !in refs && Added(t, before, objects, refs)
      modifies this
      ensures ok ==> k !in old(objects) && objects == old(objects)[k := o] && Added(t, before, objects, refs[o.role := k])
      ensures k.kind == kind && (|t.name| <= limit ==> t.name <= k.name) && Cut(t.name + tail, limit) <= k.name
      ensures |t.name| <= limit && ListedAs(t, kind, o) && Careful(t, before, old(objects)) ==>
        TidySince(t, objects, old(moments), moments) && Careful(t, before, objects)
    {
      ghost var were := objects;
      ok, k := Create(kind, t.name + tail, o);
      NamedAfter(t.name, tail, suffix(calls - 1), limit);
      if k !in were {
        AddedOneMore(t, before, were, refs, k, o);
      }
      if |t.name| <= limit && ListedAs(t, kind, o) && Careful(t, before, were) {
        CarefulIsTidy(t, before, were, refs);
        if k !in were {
          CarefulOneMore(t, before, were, refs, k, o);
        }
      }
    }

    /** Deletes, one by one, the objects among `found` whose names begin with `prefix`, until a call fails. */
    method DeleteAll(found: set<Key>, prefix: string) returns (ok: bool)
      modifies this
      ensures Between(old(objects) - Prefixed(found, prefix), objects, old(objects))
      ensures ok ==> objects == old(objects) - Prefixed(found, prefix)
      ensures old(moments) <= moments
      ensures AllBetween(old(objects) - Prefixed(found, prefix), moments, |old(moments)|, old(objects))
    {
      var rest := found;
      while rest != {}
        invariant rest <= found
        invariant objects == old(objects) - Prefixed(found - rest, prefix)
        invariant old(moments) <= moments
        invariant AllBetween(old(objects) - Prefixed(found, prefix), moments, |old(moments)|, old(objects))
        decreases rest
      {
        var k :| k in rest;
        rest := rest - {k};
        PrefixedOneMore(found, rest, k, prefix);
        if prefix <= k.name {
          ok := Delete(k);
          if !ok {
            return;
          }
        }
      }
      assert found - {} == found;
      ok := true;
    }
  }

  function Prefixed(found: set<Key>, prefix: string): set<Key> {
    set k | k in found && prefix <= k.name
  }

  lemma PrefixedOneMore(found: set<Key>, rest: set<Key>, k: Key, prefix: string)
    requires k in found && k !in rest
    ensures Prefixed(found - rest, prefix)
      == Prefixed(found - (rest + {k}), prefix) + if prefix <= k.name then {k} else {}
  {
  }

  /** What of a base stays in the generated name. */
  function Cut(base: string, limit: nat): string {
    if |base| <= limit then base else base[..limit]
  }

  lemma NamedAfter(name: string, tail: string, suffix: string, limit: nat)
    ensures |name| <= limit ==> name <= Generated(name + tail, suffix, limit)
    ensures Cut(name + tail, limit) <= Generated(name + tail, suffix, limit)
  {
  }

  /** Exactly when an object named after its owner is swept: it is listed, and its name begins with the owner's,
      which fails if the server had to cut the owner's name itself. */
  lemma WhenSwept(t: Owner, kind: Kind, tail: string, suffix: string, limit: nat, o: Object)
    ensures Swept(t, Key(kind, Generated(t.name + tail, suffix, limit)), o) <==>
      ListedAs(t, kind, o) && (|t.name| <= limit || t.name[limit..] <= suffix)
  {
    var made := Generated(t.name + tail, suffix, limit);
    if |t.name| > limit {
      assert made == t.name[..limit] + suffix;
      assert t.name == t.name[..limit] + t.name[limit..];
      if t.name <= made {
        assert made[limit..] == suffix;
        assert t.name[limit..] == made[..|t.name|][limit..];
      }
    }
  }
}

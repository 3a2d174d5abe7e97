/** Starting a builder with Shipwright: clean up, create a Build, wait for it, create a BuildRun. An attempt may
    stop at any call to the server, or while waiting, and is then repeated from the top. */
module BuilderRun {
  import opened Api
  import opened ComponentNames
  import opened Cluster

  function ShipwrightObject(name: string, role: Role, labels: Labels): Object {
    Object(OfBuilder(name), role, map[BUILDER_LABEL := name] + labels)
  }

  /** The builder's own labels, which are copied to both objects, leave the tracking label alone. */
  predicate Findable(name: string, labels: Labels) {
    BUILDER_LABEL in labels ==> labels[BUILDER_LABEL] == name
  }

  /** Exactly then cleaning up finds what starting has created. */
  lemma FindableWhen(name: string, labels: Labels, role: Role, kind: Kind)
    requires kind == Build || kind == BuildRun
    ensures ListedAs(OfBuilder(name), kind, ShipwrightObject(name, role, labels)) <==> Findable(name, labels)
  {
    var o := ShipwrightObject(name, role, labels);
    assert BUILDER_LABEL in o.labels;
  }

  /** What one kind contributes to what cleaning sweeps. */
  function OfKind(name: string, objects: Objects, kind: Kind): set<Key> {
    set k | k in objects && k.kind == kind && Labelled(objects[k], BUILDER_LABEL, name)
  }

  lemma BothKindsSweep(name: string, objects: Objects)
    ensures var first := objects - Prefixed(OfKind(name, objects, Build), name);
      first - Prefixed(OfKind(name, first, BuildRun), name) == Remaining(OfBuilder(name), objects)
  {
    var first := objects - Prefixed(OfKind(name, objects, Build), name);
    var second := first - Prefixed(OfKind(name, first, BuildRun), name);
    forall k | k in objects ensures k in second <==> !Swept(OfBuilder(name), k, objects[k]) {
    }
  }

  class Runner {
    const name: string
    const labels: Labels
    const server: Server
    /** Status.ResourceRef. */
    var resourceRef: map<Role, Key>

    constructor (name: string, labels: Labels, server: Server)
      ensures this.name == name && this.labels == labels && this.server == server && resourceRef == map[]
    {
      this.name, this.labels, this.server, resourceRef := name, labels, server, map[];
    }

    /** An object of this kind, its name, and its labels: the tracking label, and the builder's own over it. */
    predicate AsSpecified(o: Object, key: Key, kind: Kind, tail: string) {
      && key.kind == kind && Cut(name + tail, server.limit) <= key.name
      && o.labels.Keys == labels.Keys + {BUILDER_LABEL}
      && (forall l :: l in labels ==> o.labels[l] == labels[l])
      && (BUILDER_LABEL !in labels ==> o.labels[BUILDER_LABEL] == name)
    }

    predicate BothAsSpecified(objects: Objects, refs: map<Role, Key>) {
      && ForBuild in refs && refs[ForBuild] in objects
      && AsSpecified(objects[refs[ForBuild]], refs[ForBuild], Build, "-build-")
      && ForBuildRun in refs && refs[ForBuildRun] in objects
      && AsSpecified(objects[refs[ForBuildRun]], refs[ForBuildRun], BuildRun, "-buildrun-")
    }

    /** The first of two objects is still there when the second is. */
    lemma BothAreThere(now: Objects, objects: Objects, build: Key, run: Key)
      requires build in now && AsSpecified(now[build], build, Build, "-build-") && Within(now, objects)
      requires run in objects && AsSpecified(objects[run], run, BuildRun, "-buildrun-")
      ensures BothAsSpecified(objects, map[ForBuild := build, ForBuildRun := run])
      ensures map[ForBuild := build][ForBuildRun := run] == map[ForBuild := build, ForBuildRun := run]
    {
    }

    lemma OneIsAdded(build: Key)
      ensures map[][ForBuild := build] == map[ForBuild := build]
    {
    }

    method CleanKind(kind: Kind) returns (ok: bool)
      requires kind == Build || kind == BuildRun
      modifies server
      ensures Sweeping(OfBuilder(name), old(server.objects), server.objects, old(server.moments), server.moments)
      ensures ok ==> server.objects == old(server.objects) - Prefixed(OfKind(name, old(server.objects), kind), name)
    {
      var found;
      ok, found := server.List(kind, BUILDER_LABEL, name);
      if ok {
        ghost var were, past := server.objects, server.moments;
        assert found == OfKind(name, were, kind);
        ok := server.DeleteAll(found, name);
        DeletingSwept(OfBuilder(name), were, Prefixed(found, name), server.objects, past, server.moments);
      }
    }

    method Clean() returns (ok: bool)
      modifies server
      ensures Sweeping(OfBuilder(name), old(server.objects), server.objects, old(server.moments), server.moments)
      ensures ok ==> server.objects == Remaining(OfBuilder(name), old(server.objects))
    {
      ghost var were, past := server.objects, server.moments;
      ok := CleanKind(Build);
      if ok {
        ghost var now, moments := server.objects, server.moments;
        BothKindsSweep(name, were);
        ok := CleanKind(BuildRun);
        SweepingGoesOn(OfBuilder(name), were, now, server.objects, past, moments, server.moments);
      }
    }

    /** One more object, in a role that is still vacant. */
    method CreateOne(kind: Kind, role: Role, tail: string, ghost before: Objects, ghost refs: map<Role, Key>)
        returns (ok: bool, k: Key)
      requires kind == Build || kind == BuildRun
      requires role !in refs && Findable(name, labels) && |name| <= server.limit
      requires Added(OfBuilder(name), before, server.objects, refs) && Careful(OfBuilder(name), before, server.objects)
      modifies server
      ensures TidySince(OfBuilder(name), server.objects, old(server.moments), server.moments)
      ensures Careful(OfBuilder(name), before, server.objects)
      ensures ok ==> Added(OfBuilder(name), before, server.objects, refs[role := k])
      ensures ok ==> k in server.objects && AsSpecified(server.objects[k], k, kind, tail)
      ensures ok ==> Within(old(server.objects), server.objects)
    {
      FindableWhen(name, labels, role, kind);
      ok, k := server.CreateFor(OfBuilder(name), kind, tail, ShipwrightObject(name, role, labels), before, refs);
    }

    /** Both objects, from a server without any object of the builder. */
    method CreateBoth(ready: bool) returns (ok: bool)
      requires Findable(name, labels) && |name| <= server.limit
      requires Exactly(OfBuilder(name), server.objects, map[])
      modifies server, this`resourceRef
      ensures TidySince(OfBuilder(name), server.objects, old(server.moments), server.moments)
      ensures Extends(OfBuilder(name), old(server.objects), server.objects)
      ensures ok ==> ready && Exactly(OfBuilder(name), server.objects, resourceRef)
      ensures ok ==> resourceRef.Keys == {ForBuild, ForBuildRun} && BothAsSpecified(server.objects, resourceRef)
      ensures !ok ==> resourceRef == old(resourceRef)
    {
      ghost var before, past := server.objects, server.moments;
      var build, run;
      NothingAdded(OfBuilder(name), before);
      ok, build := CreateOne(Build, ForBuild, "-build-", before, map[]);
      if !ok || !ready {
        return false;
      }
      OneIsAdded(build);
      ghost var now, moments := server.objects, server.moments;
      ok, run := CreateOne(BuildRun, ForBuildRun, "-buildrun-", before, map[ForBuild := build]);
      TidyGoesOn(OfBuilder(name), now, server.objects, past, moments, server.moments);
      if ok {
        BothAreThere(now, server.objects, build, run);
        resourceRef := map[ForBuild := build, ForBuildRun := run];
        AddedIsExact(OfBuilder(name), before, server.objects, resourceRef);
      }
    }

    /** Main result: one attempt, whichever calls fail; `ready` says whether the Build registers in time. At every
        moment the builder has at most one Build and one BuildRun, and a successful attempt leaves exactly the
        two it has recorded. */
    method Start(ready: bool) returns (ok: bool)
      requires Tidy(OfBuilder(name), server.objects) && Findable(name, labels) && |name| <= server.limit
      modifies server, this`resourceRef
      ensures TidySince(OfBuilder(name), server.objects, old(server.moments), server.moments)
      ensures Spared(OfBuilder(name), old(server.objects), server.objects)
      ensures ok ==> ready && Exactly(OfBuilder(name), server.objects, resourceRef)
      ensures ok ==> resourceRef.Keys == {ForBuild, ForBuildRun} && BothAsSpecified(server.objects, resourceRef)
      ensures !ok ==> resourceRef == old(resourceRef)
    {
      ghost var were, past := server.objects, server.moments;
      ok := Clean();
      SweepingIsTidy(OfBuilder(name), were, server.objects, past, server.moments);
      if ok {
        ghost var now, moments := server.objects, server.moments;
        NothingRemains(OfBuilder(name), were);
        ok := CreateBoth(ready);
        TidyGoesOn(OfBuilder(name), now, server.objects, past, moments, server.moments);
      }
    }

    /** Attempts are repeated until one succeeds. */
    method Retry(ready: seq<bool>) returns (ok: bool)
      requires Tidy(OfBuilder(name), server.objects) && Findable(name, labels) && |name| <= server.limit
      modifies server, this`resourceRef
      ensures TidySince(OfBuilder(name), server.objects, old(server.moments), server.moments)
      ensures Spared(OfBuilder(name), old(server.objects), server.objects)
      ensures ok ==> Exactly(OfBuilder(name), server.objects, resourceRef)
      ensures ok ==> resourceRef.Keys == {ForBuild, ForBuildRun}
    {
      ghost var were, past := server.objects, server.moments;
      ok := false;
      for i := 0 to |ready|
        invariant TidySince(OfBuilder(name), server.objects, past, server.moments)
        invariant Spared(OfBuilder(name), were, server.objects)
      {
        ghost var now, moments := server.objects, server.moments;
        ok := Start(ready[i]);
        TidyGoesOn(OfBuilder(name), now, server.objects, past, moments, server.moments);
        SparedAgain(OfBuilder(name), were, now, server.objects);
        if ok {
          return;
        }
      }
      ok := false;
    }
  }
}

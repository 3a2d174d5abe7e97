/** Running an asynchronous serving: clean up, then create components, workload, scaler and proxy. An attempt
    may stop at any call to the server and is then repeated from the top. */
module ServingRun {
  import opened Api
  import opened ComponentNames
  import opened Cluster

  const MANAGED := "openfunction.io/managed"
  const VERSION := "app.kubernetes.io/version"

  datatype WorkloadType = DeploymentType | StatefulSetType | JobType

  /** `components`: the qualified names of its Dapr components; `scaled`: it has KEDA triggers; `proxied`: it
      needs a Dapr proxy of its own. */
  datatype Spec = Spec(
    labels: Labels,
    version: string,
    workload: WorkloadType,
    components: set<string>,
    scaled: bool,
    proxied: bool)

  /** The user's labels are laid over the operator's. */
  function AppendLabels(src: Labels, dest: Labels): Labels {
    dest + src
  }

  function WorkloadKind(w: WorkloadType): Kind {
    match w case DeploymentType => Deployment case StatefulSetType => StatefulSet case JobType => Job
  }

  function WithoutDots(version: string): (r: string)
    ensures '.' !in r && |r| <= |version| && forall c :: c != '.' ==> (c in r <==> c in version)
    ensures '.' !in version ==> r == version
  {
    if version == "" then ""
    else (if version[0] == '.' then "" else [version[0]]) + WithoutDots(version[1..])
  }

  function WorkloadTail(spec: Spec): string {
    (match spec.workload
     case DeploymentType => "-deployment-"
     case StatefulSetType => "-statefulset-"
     case JobType => "-job-") + WithoutDots(spec.version) + "-"
  }

  function WorkloadObject(name: string, spec: Spec): Object {
    Object(OfServing(name), ForWorkload,
      AppendLabels(spec.labels, map[MANAGED := "true", SERVING_LABEL := name, VERSION := spec.version]))
  }

  function ScalerKind(w: WorkloadType): Kind {
    if w == JobType then ScaledJob else ScaledObject
  }

  function OwnObject(name: string, role: Role): Object {
    Object(OfServing(name), role, map[MANAGED := "true", SERVING_LABEL := name])
  }

  function ProxyObject(name: string, spec: Spec): Object {
    Object(OfServing(name), ForProxy, AppendLabels(spec.labels, map[MANAGED := "true", PROXY_LABEL := name]))
  }

  /** The object and its kind in a role. */
  function ObjectFor(name: string, spec: Spec, role: Role): Object {
    match role
    case ForWorkload => WorkloadObject(name, spec)
    case ForProxy => ProxyObject(name, spec)
    case _ => OwnObject(name, role)
  }

  function KindFor(spec: Spec, role: Role): Kind {
    match role
    case ForComponent(_) => Component
    case ForWorkload => WorkloadKind(spec.workload)
    case ForScaler => ScalerKind(spec.workload)
    case ForProxy => Deployment
    case ForBuild => Build
    case ForBuildRun => BuildRun
  }

  /** What the name of the object in a role has after the serving's. */
  function TailFor(spec: Spec, role: Role): string {
    match role
    case ForComponent(key) => "-" + key + "-"
    case ForWorkload => WorkloadTail(spec)
    case ForScaler => "-scaler-"
    case ForProxy => "-proxy-deployment-" + WithoutDots(spec.version) + "-"
    case _ => ""
  }

  /** In words: the user's labels, and under them those of the operator. */
  predicate LabelledFor(labels: Labels, users: Labels, tag: string, name: string) {
    && users.Keys + {"openfunction.io/managed", tag} <= labels.Keys
    && (forall l :: l in users ==> labels[l] == users[l])
    && ("openfunction.io/managed" !in users ==> labels["openfunction.io/managed"] == "true")
    && (tag !in users ==> labels[tag] == name)
  }

  /** Main result on what is created: the kind of the workload follows its type, a job is scaled by a scaled job and
      anything else by a scaled object, and a proxy is a deployment. */
  lemma WhatIsCreated(name: string, spec: Spec)
    ensures KindFor(spec, ForWorkload) == (
      match spec.workload case DeploymentType => Deployment case StatefulSetType => StatefulSet case JobType => Job)
    ensures KindFor(spec, ForScaler) == if spec.workload.JobType? then ScaledJob else ScaledObject
    ensures KindFor(spec, ForProxy) == Deployment && forall key :: KindFor(spec, ForComponent(key)) == Component
    ensures TailFor(spec, ForScaler) == "-scaler-" && forall key :: TailFor(spec, ForComponent(key)) == "-" + key + "-"
    ensures TailFor(spec, ForProxy) == "-proxy-deployment-" + WithoutDots(spec.version) + "-"
    ensures TailFor(spec, ForWorkload) == (
      match spec.workload case DeploymentType => "-deployment-" case StatefulSetType => "-statefulset-" case JobType => "-job-")
      + WithoutDots(spec.version) + "-"
    ensures forall role :: role in Needed(spec) <==>
      || role == ForWorkload || (role == ForScaler && spec.scaled) || (role == ForProxy && spec.proxied)
      || (role.ForComponent? && role.key in spec.components)
  {
  }

  /** Every object is the serving's and fills its role; workload and proxy carry the user's labels. */
  lemma HowItIsLabelled(name: string, spec: Spec)
    ensures forall role :: ObjectFor(name, spec, role).owner == OfServing(name)
    ensures forall role :: role in Needed(spec) ==> ObjectFor(name, spec, role).role == role
    ensures var w := ObjectFor(name, spec, ForWorkload).labels;
      && LabelledFor(w, spec.labels, "openfunction.io/serving", name)
      && "app.kubernetes.io/version" in w
      && ("app.kubernetes.io/version" !in spec.labels ==> w["app.kubernetes.io/version"] == spec.version)
    ensures LabelledFor(ObjectFor(name, spec, ForProxy).labels, spec.labels, "openfunction.io/proxy", name)
    ensures forall role :: role == ForScaler || role.ForComponent? ==>
      LabelledFor(ObjectFor(name, spec, role).labels, map[], "openfunction.io/serving", name)
  {
    LabelsDiffer();
  }

  lemma LabelsDiffer()
    ensures SERVING_LABEL != PROXY_LABEL && SERVING_LABEL != MANAGED && PROXY_LABEL != MANAGED
    ensures VERSION !in {SERVING_LABEL, PROXY_LABEL, MANAGED}
  {
    assert SERVING_LABEL[16] == 's' && PROXY_LABEL[16] == 'p' && MANAGED[16] == 'm';
    assert SERVING_LABEL[0] == PROXY_LABEL[0] == MANAGED[0] == 'o' && VERSION[0] == 'a';
  }

  /** The roles a serving fills. */
  function Needed(spec: Spec): set<Role> {
    ComponentRoles(spec.components) + {ForWorkload} + Extras(spec)
  }

  function Extras(spec: Spec): set<Role> {
    (if spec.scaled then {ForScaler} else {}) + (if spec.proxied then {ForProxy} else {})
  }

  /** Will cleaning up find the object in this role? */
  predicate Traceable(name: string, spec: Spec, role: Role) {
    ListedAs(OfServing(name), KindFor(spec, role), ObjectFor(name, spec, role))
  }

  /** The user's labels leave everything findable that the operator creates with them. */
  predicate Findable(name: string, spec: Spec) {
    forall role :: role in Needed(spec) ==> Traceable(name, spec, role)
  }

  predicate Keeps(labels: Labels, tag: string, value: string) {
    tag in labels ==> labels[tag] == value
  }

  /** Exactly when labels leave everything findable, in terms of the two tracking labels. */
  lemma FindableWhen(name: string, spec: Spec)
    ensures Findable(name, spec) <==>
      && (|| Keeps(spec.labels, SERVING_LABEL, name)
          || (spec.workload == DeploymentType && PROXY_LABEL in spec.labels && spec.labels[PROXY_LABEL] == name))
      && (spec.proxied ==>
          || Keeps(spec.labels, PROXY_LABEL, name)
          || (SERVING_LABEL in spec.labels && spec.labels[SERVING_LABEL] == name))
  {
    assert SERVING_LABEL != PROXY_LABEL by { assert SERVING_LABEL[16] != PROXY_LABEL[16]; }
    assert SERVING_LABEL != MANAGED && PROXY_LABEL != MANAGED by {
      assert SERVING_LABEL[16] != MANAGED[16] && PROXY_LABEL[16] != MANAGED[16];
    }
    assert SERVING_LABEL != VERSION by { assert SERVING_LABEL[0] != VERSION[0]; }
    assert Findable(name, spec) <==> Traceable(name, spec, ForWorkload) && (spec.proxied ==> Traceable(name, spec, ForProxy)) by {
      OnlyTwoMatter(name, spec);
    }
  }

  /** The user's labels reach the workload and the proxy only. */
  lemma OnlyTwoMatter(name: string, spec: Spec)
    ensures Findable(name, spec) <==>
      Traceable(name, spec, ForWorkload) && (spec.proxied ==> Traceable(name, spec, ForProxy))
  {
    assert ForWorkload in Needed(spec) && (spec.proxied ==> ForProxy in Needed(spec));
    forall role | role in Needed(spec) && role != ForWorkload && role != ForProxy ensures Traceable(name, spec, role) {
      assert role == ForScaler || role.ForComponent?;
    }
  }

  const LISTED_KINDS := [Job, Deployment, StatefulSet, ScaledJob, ScaledObject, Service, Component]

  /** Scaled objects are gone through twice. */
  const DELETED_KINDS := [Job, Deployment, StatefulSet, ScaledJob, ScaledObject, ScaledObject, Service, Component]

  /** The objects of these kinds that carry the serving's label. */
  function Tracked(name: string, objects: Objects, kinds: seq<Kind>): set<Key> {
    set k | k in objects && k.kind in kinds && Labelled(objects[k], SERVING_LABEL, name)
  }

  function ProxyKeys(name: string, objects: Objects): set<Key> {
    set k | k in objects && k.kind == Deployment && Labelled(objects[k], PROXY_LABEL, name)
  }

  /** Deleting what the two searches find is deleting what is swept. */
  lemma BothSearchesSweep(name: string, objects: Objects)
    ensures var first := objects - Prefixed(Tracked(name, objects, DELETED_KINDS), name);
      first - Prefixed(ProxyKeys(name, first), name) == Remaining(OfServing(name), objects)
  {
    var t := OfServing(name);
    var first := objects - Prefixed(Tracked(name, objects, DELETED_KINDS), name);
    var second := first - Prefixed(ProxyKeys(name, first), name);
    forall k | k in objects ensures k in second <==> !Swept(t, k, objects[k]) {
      assert k.kind in DELETED_KINDS <==> k.kind !in {Build, BuildRun} by {
        assert DELETED_KINDS == [Job, Deployment, StatefulSet, ScaledJob, ScaledObject, ScaledObject, Service, Component];
      }
    }
  }

  /** The objects listed are as the specification wants them and, unless the server cuts it off, bear the name. */
  ghost predicate AsSpecified(name: string, spec: Spec, limit: nat, objects: Objects, refs: map<Role, Key>) {
    forall r :: r in refs ==>
      && refs[r] in objects && objects[refs[r]] == ObjectFor(name, spec, r) && refs[r].kind == KindFor(spec, r)
      && (|name| <= limit ==> name <= refs[r].name)
  }

  /** What has been added to `before` are the objects listed, as the specification wants them. */
  ghost predicate Filled(name: string, spec: Spec, limit: nat, before: Objects, objects: Objects,
                         refs: map<Role, Key>) {
    Added(OfServing(name), before, objects, refs) && AsSpecified(name, spec, limit, objects, refs)
  }

  lemma SpecifiedOneMore(name: string, spec: Spec, limit: nat, objects: Objects, refs: map<Role, Key>, role: Role, k: Key)
    requires AsSpecified(name, spec, limit, objects, refs) && k !in objects
    requires k.kind == KindFor(spec, role) && (|name| <= limit ==> name <= k.name)
    ensures AsSpecified(name, spec, limit, objects[k := ObjectFor(name, spec, role)], refs[role := k])
  {
  }

  predicate Doubled(objects: Objects, j: Key, k: Key) {
    j != k && j in objects && k in objects && objects[j] == objects[k]
  }

  /** Main result: two successful attempts in a row leave the serving with exactly the objects recorded by the
      second if and only if the user's labels leave all its objects findable; otherwise at least one is there
      twice. */
  lemma WhenRepeatingDoublesNothing(name: string, spec: Spec, limit: nat, before: Objects,
                                    first: Objects, refs: map<Role, Key>, second: Objects, again: map<Role, Key>)
    requires |name| <= limit && Exactly(OfServing(name), before, map[])
    requires refs.Keys == again.Keys == Needed(spec)
    requires Filled(name, spec, limit, before, first, refs)
    requires Filled(name, spec, limit, Remaining(OfServing(name), first), second, again)
    ensures Findable(name, spec) <==> Exactly(OfServing(name), second, again)
    ensures !Findable(name, spec) ==> exists r :: r in refs && Doubled(second, refs[r], again[r])
  {
    var t := OfServing(name);
    var left := Remaining(t, first);
    assert forall r :: r in refs ==> (Swept(t, refs[r], first[refs[r]]) <==> Traceable(name, spec, r));
    if Findable(name, spec) {
      assert Exactly(t, left, map[]);
      AddedIsExact(t, left, second, again);
    } else {
      var r :| r in Needed(spec) && !Traceable(name, spec, r);
      assert r in refs && refs[r] in left && again[r] !in left;
      assert second[refs[r]].role == r;
      assert Doubled(second, refs[r], again[r]);
    }
  }

  /** One serving and the server it lives on. */
  class Runner {
    const name: string
    const server: Server
    /** Status.ResourceRef: the object in every role that has been filled. */
    var resourceRef: map<Role, Key>

    constructor (name: string, server: Server)
      ensures this.name == name && this.server == server && resourceRef == map[]
    {
      this.name, this.server, resourceRef := name, server, map[];
    }

    /** Lists all kinds before anything is deleted. */
    method ListAll() returns (ok: bool, found: map<Kind, set<Key>>)
      modifies server`calls
      ensures ok ==> forall kind :: kind in LISTED_KINDS ==>
        kind in found && found[kind] == Tracked(name, server.objects, [kind])
    {
      found := map[];
      for i := 0 to |LISTED_KINDS|
        invariant forall kind :: kind in LISTED_KINDS[..i] ==>
          kind in found && found[kind] == Tracked(name, server.objects, [kind])
      {
        var items;
        ok, items := server.List(LISTED_KINDS[i], SERVING_LABEL, name);
        if !ok {
          return;
        }
        found := found[LISTED_KINDS[i] := items];
      }
      ok := true;
    }

    /** Deletes what was found of one kind; `done` are the kinds that went before. */
    method DeleteKind(kind: Kind, items: set<Key>, ghost were: Objects, ghost done: seq<Kind>) returns (ok: bool)
      requires kind in DELETED_KINDS && items == Tracked(name, were, [kind])
      requires server.objects == were - Prefixed(Tracked(name, were, done), name)
      modifies server
      ensures Sweeping(OfServing(name), old(server.objects), server.objects, old(server.moments), server.moments)
      ensures ok ==> server.objects == were - Prefixed(Tracked(name, were, done + [kind]), name)
    {
      ghost var now, past := server.objects, server.moments;
      ok := server.DeleteAll(items, name);
      KindIsSwept(name, were, now, kind);
      DeletingSwept(OfServing(name), now, Prefixed(items, name), server.objects, past, server.moments);
      TrackedOneMore(name, were, done, kind);
    }

    method DeleteTracked(found: map<Kind, set<Key>>) returns (ok: bool)
      requires forall kind :: kind in LISTED_KINDS ==>
        kind in found && found[kind] == Tracked(name, server.objects, [kind])
      modifies server
      ensures Sweeping(OfServing(name), old(server.objects), server.objects, old(server.moments), server.moments)
      ensures ok ==>
        server.objects == old(server.objects) - Prefixed(Tracked(name, old(server.objects), DELETED_KINDS), name)
    {
      ghost var were, past := server.objects, server.moments;
      for i := 0 to |DELETED_KINDS|
        invariant server.objects == were - Prefixed(Tracked(name, were, DELETED_KINDS[..i]), name)
        invariant Sweeping(OfServing(name), were, server.objects, past, server.moments)
      {
        ghost var now, moments := server.objects, server.moments;
        EveryKindIsListed(i);
        ok := DeleteKind(DELETED_KINDS[i], found[DELETED_KINDS[i]], were, DELETED_KINDS[..i]);
        SweepingGoesOn(OfServing(name), were, now, server.objects, past, moments, server.moments);
        assert DELETED_KINDS[..i + 1] == DELETED_KINDS[..i] + [DELETED_KINDS[i]];
        if !ok {
          return;
        }
      }
      assert DELETED_KINDS[..|DELETED_KINDS|] == DELETED_KINDS;
      ok := true;
    }

    method CleanDaprProxy() returns (ok: bool)
      modifies server
      ensures Sweeping(OfServing(name), old(server.objects), server.objects, old(server.moments), server.moments)
      ensures ok ==> server.objects == old(server.objects) - Prefixed(ProxyKeys(name, old(server.objects)), name)
    {
      var found;
      ok, found := server.List(Deployment, PROXY_LABEL, name);
      if ok {
        ghost var were, past := server.objects, server.moments;
        assert found == ProxyKeys(name, were);
        ok := server.DeleteAll(found, name);
        DeletingSwept(OfServing(name), were, Prefixed(found, name), server.objects, past, server.moments);
      }
    }

    /** Deletes, unless a call fails, exactly what carries the serving's labels and bears its name. */
    method Clean() returns (ok: bool)
      modifies server
      ensures Sweeping(OfServing(name), old(server.objects), server.objects, old(server.moments), server.moments)
      ensures ok ==> server.objects == Remaining(OfServing(name), old(server.objects))
    {
      ghost var were, past := server.objects, server.moments;
      var found;
      ok, found := ListAll();
      if !ok {
        return;
      }
      ok := DeleteTracked(found);
      if ok {
        ghost var now, moments := server.objects, server.moments;
        BothSearchesSweep(name, were);
        ok := CleanDaprProxy();
        SweepingGoesOn(OfServing(name), were, now, server.objects, past, moments, server.moments);
      }
    }

    /** One object per component; they are recorded once all exist. */
    method CreateComponents(spec: Spec) returns (ok: bool)
      requires resourceRef == map[]
      modifies server, this`resourceRef
      ensures ok ==> Filled(name, spec, server.limit, old(server.objects), server.objects, resourceRef)
      ensures ok ==> resourceRef.Keys == ComponentRoles(spec.components)
      ensures |name| <= server.limit && Exactly(OfServing(name), old(server.objects), map[]) ==>
        TidySince(OfServing(name), server.objects, old(server.moments), server.moments)
        && Careful(OfServing(name), old(server.objects), server.objects)
    {
      ghost var t, before, past := OfServing(name), server.objects, server.moments;
      ghost var careful := |name| <= server.limit && Exactly(t, before, map[]);
      var refs: map<Role, Key> := map[];
      var rest := spec.components;
      if careful {
        CarefulIsTidy(t, before, server.objects, refs);
      }
      while rest != {}
        invariant rest <= spec.components && refs.Keys == ComponentRoles(spec.components - rest)
        invariant Filled(name, spec, server.limit, before, server.objects, refs)
        invariant careful ==> TidySince(t, server.objects, past, server.moments) && Careful(t, before, server.objects)
        decreases rest
      {
        var key :| key in rest;
        ghost var now, moments := server.objects, server.moments;
        var k;
        ComponentRolesOneMore(spec.components, rest, key);
        ok, k := server.CreateFor(OfServing(name), Component, TailFor(spec, ForComponent(key)),
                                  OwnObject(name, ForComponent(key)), before, refs);
        if careful {
          TidyGoesOn(t, now, server.objects, past, moments, server.moments);
        }
        if !ok {
          return;
        }
        refs, rest := refs[ForComponent(key) := k], rest - {key};
      }
      assert spec.components - {} == spec.components;
      resourceRef := refs;
      ok := true;
    }

    /** Creates the object in one more role. */
    method CreateIn(spec: Spec, role: Role, ghost before: Objects) returns (ok: bool, k: Key)
      requires role !in resourceRef && Added(OfServing(name), before, server.objects, resourceRef)
      modifies server
      ensures ok ==> k !in old(server.objects) && k.kind == KindFor(spec, role)
      ensures ok ==> server.objects == old(server.objects)[k := ObjectFor(name, spec, role)]
      ensures ok ==> Added(OfServing(name), before, server.objects, resourceRef[role := k])
      ensures ok ==> Cut(name + TailFor(spec, role), server.limit) <= k.name && (|name| <= server.limit ==> name <= k.name)
      ensures |name| <= server.limit && Traceable(name, spec, role) && Careful(OfServing(name), before, old(server.objects)) ==>
        TidySince(OfServing(name), server.objects, old(server.moments), server.moments)
        && Careful(OfServing(name), before, server.objects)
    {
      ok, k := server.CreateFor(OfServing(name), KindFor(spec, role), TailFor(spec, role), ObjectFor(name, spec, role),
                                before, resourceRef);
    }

    /** Fills one more role and records the object. */
    method Fill(spec: Spec, role: Role, ghost before: Objects) returns (ok: bool)
      requires role !in resourceRef
      requires Filled(name, spec, server.limit, before, server.objects, resourceRef)
      modifies server, this`resourceRef
      ensures ok ==> Filled(name, spec, server.limit, before, server.objects, resourceRef)
      ensures ok ==> resourceRef.Keys == old(resourceRef).Keys + {role}
      ensures |name| <= server.limit && Traceable(name, spec, role) && Careful(OfServing(name), before, old(server.objects)) ==>
        TidySince(OfServing(name), server.objects, old(server.moments), server.moments)
        && Careful(OfServing(name), before, server.objects)
    {
      ghost var were := server.objects;
      var k;
      ok, k := CreateIn(spec, role, before);
      if ok {
        SpecifiedOneMore(name, spec, server.limit, were, resourceRef, role, k);
        resourceRef := resourceRef[role := k];
      }
    }

    /** The workload, for whose environment component types may have to be looked up. */
    method CreateWorkload(spec: Spec, ghost before: Objects) returns (ok: bool)
      requires ForWorkload !in resourceRef
      requires Filled(name, spec, server.limit, before, server.objects, resourceRef)
      modifies server, this`resourceRef
      ensures ok ==> Filled(name, spec, server.limit, before, server.objects, resourceRef)
      ensures ok ==> resourceRef.Keys == old(resourceRef).Keys + {ForWorkload}
      ensures |name| <= server.limit && Findable(name, spec) && Careful(OfServing(name), before, old(server.objects)) ==>
        TidySince(OfServing(name), server.objects, old(server.moments), server.moments)
        && Careful(OfServing(name), before, server.objects)
    {
      StillTidy(before);
      OnlyTwoMatter(name, spec);
      ok := server.Read();
      if ok {
        ok := Fill(spec, ForWorkload, before);
      }
    }

    /** Without triggers there is nothing to scale. */
    method CreateScaler(spec: Spec, ghost before: Objects) returns (ok: bool)
      requires ForScaler !in resourceRef
      requires Filled(name, spec, server.limit, before, server.objects, resourceRef)
      modifies server, this`resourceRef
      ensures ok ==> Filled(name, spec, server.limit, before, server.objects, resourceRef)
      ensures ok ==> resourceRef.Keys == old(resourceRef).Keys + if spec.scaled then {ForScaler} else {}
      ensures |name| <= server.limit && Careful(OfServing(name), before, old(server.objects)) ==>
        TidySince(OfServing(name), server.objects, old(server.moments), server.moments)
        && Careful(OfServing(name), before, server.objects)
    {
      StillTidy(before);
      ok := true;
      if spec.scaled {
        ok := Fill(spec, ForScaler, before);
      }
    }

    method CreateDaprProxy(spec: Spec, ghost before: Objects) returns (ok: bool)
      requires ForProxy !in resourceRef
      requires Filled(name, spec, server.limit, before, server.objects, resourceRef)
      modifies server, this`resourceRef
      ensures ok ==> Filled(name, spec, server.limit, before, server.objects, resourceRef)
      ensures ok ==> resourceRef.Keys == old(resourceRef).Keys + if spec.proxied then {ForProxy} else {}
      ensures |name| <= server.limit && Findable(name, spec) && Careful(OfServing(name), before, old(server.objects)) ==>
        TidySince(OfServing(name), server.objects, old(server.moments), server.moments)
        && Careful(OfServing(name), before, server.objects)
    {
      StillTidy(before);
      OnlyTwoMatter(name, spec);
      ok := true;
      if spec.proxied {
        ok := server.Read();
        if ok {
          ok := Fill(spec, ForProxy, before);
        }
      }
    }

    /** Nothing has happened yet. */
    lemma StillTidy(before: Objects)
      requires Added(OfServing(name), before, server.objects, resourceRef)
      ensures Careful(OfServing(name), before, server.objects) ==>
        TidySince(OfServing(name), server.objects, server.moments, server.moments)
    {
      if Careful(OfServing(name), before, server.objects) {
        CarefulIsTidy(OfServing(name), before, server.objects, resourceRef);
      }
    }

    /** Everything that follows the workload. */
    method CreateExtras(spec: Spec, ghost before: Objects) returns (ok: bool)
      requires ForScaler !in resourceRef && ForProxy !in resourceRef
      requires Filled(name, spec, server.limit, before, server.objects, resourceRef)
      modifies server, this`resourceRef
      ensures ok ==> Filled(name, spec, server.limit, before, server.objects, resourceRef)
      ensures ok ==> resourceRef.Keys == old(resourceRef).Keys + Extras(spec)
      ensures |name| <= server.limit && Findable(name, spec) && Careful(OfServing(name), before, old(server.objects)) ==>
        TidySince(OfServing(name), server.objects, old(server.moments), server.moments)
        && Careful(OfServing(name), before, server.objects)
    {
      ghost var past, roles, were := server.moments, resourceRef.Keys, server.objects;
      ok := CreateScaler(spec, before);
      if ok {
        assert ForProxy !in resourceRef;
        ghost var now, moments := server.objects, server.moments;
        ok := CreateDaprProxy(spec, before);
        if |name| <= server.limit && Findable(name, spec) && Careful(OfServing(name), before, were) {
          TidyGoesOn(OfServing(name), now, server.objects, past, moments, server.moments);
        }
        ExtrasAdded(roles, spec);
      }
    }

    /** Everything that follows the components. */
    method CreateRest(spec: Spec, ghost before: Objects) returns (ok: bool)
      requires {ForWorkload, ForScaler, ForProxy} !! resourceRef.Keys
      requires Filled(name, spec, server.limit, before, server.objects, resourceRef)
      modifies server, this`resourceRef
      ensures ok ==> Filled(name, spec, server.limit, before, server.objects, resourceRef)
      ensures ok ==> resourceRef.Keys == old(resourceRef).Keys + {ForWorkload} + Extras(spec)
      ensures |name| <= server.limit && Findable(name, spec) && Careful(OfServing(name), before, old(server.objects)) ==>
        TidySince(OfServing(name), server.objects, old(server.moments), server.moments)
        && Careful(OfServing(name), before, server.objects)
    {
      ghost var were, past := server.objects, server.moments;
      ok := CreateWorkload(spec, before);
      if ok {
        ghost var now, moments := server.objects, server.moments;
        ok := CreateExtras(spec, before);
        if |name| <= server.limit && Findable(name, spec) && Careful(OfServing(name), before, were) {
          TidyGoesOn(OfServing(name), now, server.objects, past, moments, server.moments);
        }
      }
    }

    /** Everything but cleaning up. */
    method CreateEverything(spec: Spec) returns (ok: bool)
      requires resourceRef == map[]
      modifies server, this`resourceRef
      ensures ok ==> Filled(name, spec, server.limit, old(server.objects), server.objects, resourceRef)
      ensures ok ==> resourceRef.Keys == Needed(spec)
      ensures |name| <= server.limit && Findable(name, spec) && Exactly(OfServing(name), old(server.objects), map[]) ==>
        TidySince(OfServing(name), server.objects, old(server.moments), server.moments)
        && Careful(OfServing(name), old(server.objects), server.objects)
    {
      ghost var t, before, past := OfServing(name), server.objects, server.moments;
      ghost var careful := |name| <= server.limit && Findable(name, spec) && Exactly(t, before, map[]);
      ok := CreateComponents(spec);
      if ok {
        ghost var now, moments := server.objects, server.moments;
        ok := CreateRest(spec, before);
        if careful {
          TidyGoesOn(t, now, server.objects, past, moments, server.moments);
        }
      }
    }

    /** Main result: one attempt, whichever calls fail or lose their answer. A successful attempt adds to what
        cleaning leaves exactly the objects it has recorded, one for every role needed. On a tidy server, and with
        labels that leave everything findable, the serving has at most one object in every role at every moment,
        and after success no others than those recorded; objects that cleaning does not sweep are untouched. */
    method Run(spec: Spec) returns (ok: bool)
      modifies server, this`resourceRef
      ensures ok ==> resourceRef.Keys == Needed(spec)
      ensures ok ==>
        Filled(name, spec, server.limit, Remaining(OfServing(name), old(server.objects)), server.objects, resourceRef)
      ensures old(Ready(spec)) ==>
        && TidySince(OfServing(name), server.objects, old(server.moments), server.moments)
        && Spared(OfServing(name), old(server.objects), server.objects)
        && (ok ==> Exactly(OfServing(name), server.objects, resourceRef))
    {
      ghost var t, were, past, ready := OfServing(name), server.objects, server.moments, Ready(spec);
      ok := Clean();
      if ready {
        SweepingIsTidy(t, were, server.objects, past, server.moments);
      }
      if ok {
        ghost var now, moments := server.objects, server.moments;
        resourceRef := map[];
        ok := CreateEverything(spec);
        if ready {
          NothingRemains(t, were);
          TidyGoesOn(t, now, server.objects, past, moments, server.moments);
          if ok {
            AddedIsExact(t, now, server.objects, resourceRef);
          }
        }
      }
    }

    ghost predicate Ready(spec: Spec)
      reads server`objects
    {
      Tidy(OfServing(name), server.objects) && Findable(name, spec) && |name| <= server.limit
    }

    /** Two attempts in a row from a server without any object of the serving. */
    method RunTwice(spec: Spec) returns (ok: bool)
      requires |name| <= server.limit && Exactly(OfServing(name), server.objects, map[])
      modifies server, this`resourceRef
      ensures ok ==> (Findable(name, spec) <==> Exactly(OfServing(name), server.objects, resourceRef))
    {
      ghost var before := Remaining(OfServing(name), server.objects);
      ok := Run(spec);
      if ok {
        ghost var first, refs := server.objects, resourceRef;
        ok := Run(spec);
        if ok {
          WhenRepeatingDoublesNothing(name, spec, server.limit, before, first, refs, server.objects, resourceRef);
        }
      }
    }

    /** Attempts are repeated until one succeeds; the specification may have been edited in between. */
    method Retry(specs: seq<Spec>) returns (ok: bool, last: nat)
      requires Tidy(OfServing(name), server.objects) && |name| <= server.limit
      requires forall i :: 0 <= i < |specs| ==> Findable(name, specs[i])
      modifies server, this`resourceRef
      ensures TidySince(OfServing(name), server.objects, old(server.moments), server.moments)
      ensures Spared(OfServing(name), old(server.objects), server.objects)
      ensures ok ==> last < |specs| && resourceRef.Keys == Needed(specs[last])
      ensures ok ==> Exactly(OfServing(name), server.objects, resourceRef)
    {
      ghost var were, past := server.objects, server.moments;
      ok, last := false, 0;
      while last < |specs|
        invariant last <= |specs| && !ok
        invariant TidySince(OfServing(name), server.objects, past, server.moments)
        invariant Spared(OfServing(name), were, server.objects)
      {
        ghost var now, moments := server.objects, server.moments;
        ok := Run(specs[last]);
        TidyGoesOn(OfServing(name), now, server.objects, past, moments, server.moments);
        SparedAgain(OfServing(name), were, now, server.objects);
        if ok {
          return;
        }
        last := last + 1;
      }
    }
  }

  function ComponentRoles(keys: set<string>): set<Role> {
    set key | key in keys :: ForComponent(key)
  }

  lemma ExtrasAdded(roles: set<Role>, spec: Spec)
    ensures roles + (if spec.scaled then {ForScaler} else {}) + (if spec.proxied then {ForProxy} else {})
      == roles + Extras(spec)
  {
  }

  lemma ComponentRolesOneMore(keys: set<string>, rest: set<string>, key: string)
    requires rest <= keys && key in rest
    ensures ComponentRoles(keys - (rest - {key})) == ComponentRoles(keys - rest) + {ForComponent(key)}
    ensures ForComponent(key) !in ComponentRoles(keys - rest)
  {
    assert keys - (rest - {key}) == keys - rest + {key};
  }

  lemma EveryKindIsListed(i: nat)
    requires i < |DELETED_KINDS|
    ensures DELETED_KINDS[i] in LISTED_KINDS
  {
    assert LISTED_KINDS == [Job, Deployment, StatefulSet, ScaledJob, ScaledObject, Service, Component];
  }

  lemma KindIsSwept(name: string, were: Objects, now: Objects, kind: Kind)
    requires kind in DELETED_KINDS && Within(now, were)
    ensures forall k :: k in Prefixed(Tracked(name, were, [kind]), name) && k in now ==> Swept(OfServing(name), k, now[k])
  {
    assert kind !in {Build, BuildRun};
  }

  lemma TrackedOneMore(name: string, objects: Objects, kinds: seq<Kind>, kind: Kind)
    ensures Tracked(name, objects, kinds + [kind]) == Tracked(name, objects, kinds) + Tracked(name, objects, [kind])
  {
  }
}

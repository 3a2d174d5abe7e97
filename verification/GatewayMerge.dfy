/** The Gateway controller's three-way merge: listeners it applied last, listeners it wants now, and the live
    listeners of a Kubernetes Gateway that others use as well. */
module GatewayMerge {
  import opened Api

  /** A listener: its name, and everything else about it. */
  datatype Listener = Listener(name: string, rest: string)

  /** Namespace and name of a Kubernetes Gateway. */
  datatype Key = Key(space: string, name: string)

  datatype GatewayDef = GatewayDef(key: Key, className: string)

  /** `settings` stands for domain, templates and label key. */
  datatype GatewaySpec = GatewaySpec(
    settings: string,
    ref: Option<Key>,
    def: Option<GatewayDef>,
    listeners: seq<Listener>)

  const ZERO_SPEC := GatewaySpec("", None, None, [])

  /** `annotations` is the annotation map, if the object has one, reduced to what its configuration annotation
      decodes to, if it does. */
  datatype Gateway = Gateway(
    spec: GatewaySpec,
    annotations: Option<Option<GatewaySpec>>,
    finalizer: bool,
    deleting: bool)
  {
    /** The specification applied last, as far as one can be read. */
    function LastApplied(): Option<GatewaySpec> {
      if annotations.None? then None else annotations.value
    }
  }

  /** How an attempt ends: well, with an error, or by an assignment into a nil map. */
  datatype Outcome = Completed | Unsuccessful | Panicked

  /** `injected` is the listener annotation the operator leaves behind. */
  datatype K8sGateway = K8sGateway(className: string, listeners: seq<Listener>, injected: Option<seq<Listener>>)

  type Listeners = map<string, Listener>

  // ---------- Lists and mappings ----------

  /** The mapping of a list: of listeners with the same name the last one counts. */
  function Mapping(ls: seq<Listener>): (m: Listeners)
    ensures ByName(m)
    ensures forall n :: n in m <==> exists i :: 0 <= i < |ls| && ls[i].name == n
  {
    if ls == [] then map[] else Mapping(ls[..|ls| - 1])[ls[|ls| - 1].name := ls[|ls| - 1]]
  }

  predicate ByName(m: Listeners) {
    forall n :: n in m ==> m[n].name == n
  }

  lemma MappingOfOneMore(ls: seq<Listener>, l: Listener)
    ensures Mapping(ls + [l]) == Mapping(ls)[l.name := l]
  {
    assert (ls + [l])[..|ls|] == ls;
  }

  method ListToMapping(listeners: seq<Listener>) returns (mapping: Listeners)
    ensures mapping == Mapping(listeners)
  {
    mapping := map[];
    for i := 0 to |listeners|
      invariant mapping == Mapping(listeners[..i])
    {
      assert listeners[..i + 1] == listeners[..i] + [listeners[i]];
      MappingOfOneMore(listeners[..i], listeners[i]);
      mapping := mapping[listeners[i].name := listeners[i]];
    }
    assert listeners[..|listeners|] == listeners;
  }

  lemma OneMoreTaken(mapping: Listeners, rest: set<string>, name: string)
    requires name in rest && name in mapping
    ensures mapping - (rest - {name}) == (mapping - rest)[name := mapping[name]]
    ensures |rest - {name}| + 1 == |rest|
  {
  }

  /** The listeners of a mapping in whatever order iteration yields them; the order does not matter to the way back. */
  method MappingToList(mapping: Listeners) returns (listeners: seq<Listener>)
    requires ByName(mapping)
    ensures Mapping(listeners) == mapping && |listeners| == |mapping|
  {
    listeners := [];
    var rest := mapping.Keys;
    while rest != {}
      invariant rest <= mapping.Keys
      invariant Mapping(listeners) == mapping - rest
      invariant |listeners| + |rest| == |mapping|
      decreases rest
    {
      var name :| name in rest;
      MappingOfOneMore(listeners, mapping[name]);
      OneMoreTaken(mapping, rest, name);
      listeners, rest := listeners + [mapping[name]], rest - {name};
    }
    assert mapping - {} == mapping;
  }

  // ---------- What merging and cleaning do to the mappings ----------

  function Merge(before: Listeners, wanted: Listeners, live: Listeners): Listeners {
    (live - (before.Keys - wanted.Keys)) + wanted
  }

  function LastListeners(last: Option<GatewaySpec>): Listeners {
    if last.None? then map[] else Mapping(last.value.listeners)
  }

  /** Does the live gateway have to be touched? */
  predicate NeedReconcile(last: Option<GatewaySpec>, spec: GatewaySpec, live: Listeners) {
    || (exists n :: n in Mapping(spec.listeners) && (n !in live || live[n] != Mapping(spec.listeners)[n]))
    || last.None?
    || last.value.listeners != spec.listeners
  }

  /** The configuration annotation after an attempt; an undecodable one counts as the zero specification. */
  function Annotated(last: Option<GatewaySpec>, spec: GatewaySpec): Option<GatewaySpec> {
    if (if last.None? then ZERO_SPEC else last.value) == spec then last else Some(spec)
  }

  /** Main result on the guard: skipping the merge when it is off equals merging. */
  lemma GuardSkipsOnlyIdleMerges(last: Option<GatewaySpec>, spec: GatewaySpec, live: Listeners)
    requires !NeedReconcile(last, spec, live)
    ensures Merge(LastListeners(last), Mapping(spec.listeners), live) == live
  {
  }

  /** Main result on the guard: after a merge, written back as a list in any order, and the annotation update
      the guard is off, except for the one case in which the annotation is not written. */
  lemma GuardIsOffAfterMerge(last: Option<GatewaySpec>, spec: GatewaySpec, live: Listeners, written: seq<Listener>)
    requires Mapping(written) == Merge(LastListeners(last), Mapping(spec.listeners), live)
    ensures NeedReconcile(Annotated(last, spec), spec, Mapping(written)) <==> (last.None? && spec == ZERO_SPEC)
  {
  }

  /** The live listeners of every Kubernetes Gateway. */
  type LiveMap = map<Key, Listeners>

  function Live(gateways: map<Key, K8sGateway>): LiveMap {
    map k | k in gateways :: Mapping(gateways[k].listeners)
  }

  lemma LiveWith(gateways: map<Key, K8sGateway>, k: Key, k8s: K8sGateway)
    ensures Live(gateways[k := k8s]) == Live(gateways)[k := Mapping(k8s.listeners)]
  {
  }

  lemma LiveWithout(gateways: map<Key, K8sGateway>, k: Key)
    ensures Live(gateways - {k}) == Live(gateways) - {k}
  {
  }

  /** Taking back what a specification put into its gateway; a gateway of its own goes altogether. */
  function Cleaned(spec: GatewaySpec, live: LiveMap): LiveMap {
    if spec.ref.Some? && spec.ref.value !in live then live
    else
      var freed := if spec.ref.Some? then live[spec.ref.value := live[spec.ref.value] - Mapping(spec.listeners).Keys] else live;
      if spec.def.Some? then freed - {spec.def.value.key} else freed
  }

  function CleanedExternal(last: Option<GatewaySpec>, spec: GatewaySpec, live: LiveMap): LiveMap {
    if last.Some? && (last.value.ref != spec.ref || last.value.def != spec.def) then Cleaned(last.value, live) else live
  }

  /** An attempt fails when the gateway it refers to does not exist. */
  predicate Completes(spec: GatewaySpec, live: LiveMap) {
    spec.ref.Some? ==> spec.ref.value in live
  }

  function Applied(last: Option<GatewaySpec>, spec: GatewaySpec, live: LiveMap): LiveMap
    requires Completes(spec, live)
  {
    var wanted := Mapping(spec.listeners);
    var merged := if spec.ref.Some?
      then live[spec.ref.value := Merge(LastListeners(last), wanted, live[spec.ref.value])] else live;
    if spec.def.None? then merged
    else
      var k := spec.def.value.key;
      merged[k := if k in merged then Merge(LastListeners(last), wanted, merged[k]) else wanted]
  }

  // ---------- What that amounts to, listener by listener ----------

  /** Wanted listeners are as they are wanted; those applied last and not wanted any more are gone; others stay. */
  predicate MergedByName(before: Listeners, wanted: Listeners, live: Listeners, merged: Listeners) {
    && merged.Keys == wanted.Keys + (live.Keys - before.Keys)
    && (forall n :: n in wanted ==> merged[n] == wanted[n])
    && (forall n :: n in live && n !in before && n !in wanted ==> merged[n] == live[n])
  }

  lemma MergeGoesByName(before: Listeners, wanted: Listeners, live: Listeners)
    ensures MergedByName(before, wanted, live, Merge(before, wanted, live))
  {
  }

  lemma MergeTwice(before: Listeners, wanted: Listeners, live: Listeners)
    ensures Merge(before, wanted, Merge(before, wanted, live)) == Merge(before, wanted, live)
  {
  }

  /** Main result on applying: the gateway referred to and the one defined, if it exists, are merged listener by
      listener; one that is defined and does not exist is created with exactly the wanted ones; no other is touched. */
  lemma WhatIsApplied(last: Option<GatewaySpec>, spec: GatewaySpec, live: LiveMap, k: Key)
    requires Completes(spec, live)
    ensures var applied, wanted := Applied(last, spec, live), Mapping(spec.listeners);
      var before := if last.Some? then Mapping(last.value.listeners) else map[];
      var mine := spec.ref == Some(k) || (spec.def.Some? && spec.def.value.key == k);
      && (k in applied <==> k in live || mine)
      && (mine && k in live ==> MergedByName(before, wanted, live[k], applied[k]))
      && (mine && k !in live ==> applied[k] == wanted)
      && (!mine && k in live ==> applied[k] == live[k])
  {
    var before := LastListeners(last);
    if k in live {
      MergeGoesByName(before, Mapping(spec.listeners), live[k]);
      MergeTwice(before, Mapping(spec.listeners), live[k]);
    }
  }

  /** Main result on cleaning: if the gateway referred to is missing nothing happens; otherwise the listeners named are
      taken out of it, and the gateway defined is deleted; no other is touched. */
  lemma WhatIsCleaned(spec: GatewaySpec, live: LiveMap, k: Key)
    ensures var clean, stuck := Cleaned(spec, live), spec.ref.Some? && spec.ref.value !in live;
      var defined := spec.def.Some? && spec.def.value.key == k;
      && (stuck ==> clean == live)
      && (!stuck ==> (k in clean <==> k in live && !defined))
      && (!stuck && k in clean && spec.ref == Some(k) ==>
            && clean[k].Keys == live[k].Keys - Mapping(spec.listeners).Keys
            && forall n :: n in clean[k] ==> clean[k][n] == live[k][n])
      && (!stuck && k in clean && spec.ref != Some(k) ==> clean[k] == live[k])
  {
  }

  /** What was applied last is cleaned up exactly if it was applied elsewhere. */
  lemma WhenItIsCleaned(last: Option<GatewaySpec>, spec: GatewaySpec, live: LiveMap)
    ensures last.Some? && last.value.ref == spec.ref && last.value.def == spec.def ==>
      CleanedExternal(last, spec, live) == live
    ensures last.Some? && (last.value.ref != spec.ref || last.value.def != spec.def) ==>
      CleanedExternal(last, spec, live) == Cleaned(last.value, live)
    ensures last.None? ==> CleanedExternal(last, spec, live) == live
  {
  }

  // ---------- The controller ----------

  class GatewayReconciler {
    /** The Kubernetes Gateways on the API server. */
    var gateways: map<Key, K8sGateway>
    /** The operator's own Gateway object. */
    var gateway: Gateway
    /** The Kubernetes Gateway in hand, with its key. */
    var k8sGateway: Option<(Key, K8sGateway)>

    constructor (gateways: map<Key, K8sGateway>, gateway: Gateway)
      ensures this.gateways == gateways && this.gateway == gateway && k8sGateway == None
    {
      this.gateways := gateways;
      this.gateway := gateway;
      k8sGateway := None;
    }

    /** Merges into the gateway in hand and stores it. */
    method ReconcileK8sGateway()
      requires k8sGateway.Some? && k8sGateway.value.0 in gateways && gateways[k8sGateway.value.0] == k8sGateway.value.1
      modifies this`gateways, this`k8sGateway
      ensures var k, before := old(k8sGateway.value.0), old(k8sGateway.value.1);
        && k8sGateway.Some? && k8sGateway.value.0 == k
        && gateways == old(gateways)[k := k8sGateway.value.1]
        && Mapping(gateways[k].listeners)
             == Merge(LastListeners(gateway.LastApplied()), Mapping(gateway.spec.listeners), Mapping(before.listeners))
        && gateways[k].injected == Some(gateway.spec.listeners)
        && gateways[k].className == before.className
    {
      var key, k8s := k8sGateway.value.0, k8sGateway.value.1;
      var listeners := MergedList(gateway.LastApplied(), gateway.spec.listeners, k8s.listeners);
      k8s := k8s.(listeners := listeners, injected := Some(gateway.spec.listeners));
      k8sGateway := Some((key, k8s));
      gateways := gateways[key := k8s];
    }

    /** The three-way merge, list in and list out. */
    static method MergedList(last: Option<GatewaySpec>, wanted: seq<Listener>, live: seq<Listener>)
        returns (listeners: seq<Listener>)
      ensures Mapping(listeners) == Merge(LastListeners(last), Mapping(wanted), Mapping(live))
      ensures |listeners| == |Mapping(listeners)|
    {
      var oldMapping: Listeners := map[];
      if last.Some? {
        oldMapping := ListToMapping(last.value.listeners);
      }
      var newMapping := ListToMapping(wanted);
      var k8sMapping := ListToMapping(live);
      k8sMapping := DropStale(oldMapping, newMapping, k8sMapping);
      k8sMapping := AddAll(newMapping, k8sMapping);
      listeners := MappingToList(k8sMapping);
    }

    /** What is left of the live listeners when those of a specification are removed. */
    static method RemainingList(removed: seq<Listener>, live: seq<Listener>) returns (listeners: seq<Listener>)
      ensures Mapping(listeners) == Mapping(live) - Mapping(removed).Keys
    {
      var unwanted := ListToMapping(removed);
      var mapping := ListToMapping(live);
      var none: Listeners := map[];
      mapping := DropStale(unwanted, none, mapping);
      assert unwanted.Keys - none.Keys == unwanted.Keys;
      listeners := MappingToList(mapping);
    }

    /** Deletes, one by one, the entries that were applied before and are not wanted any more. */
    static method DropStale(before: Listeners, wanted: Listeners, live: Listeners) returns (m: Listeners)
      requires ByName(live)
      ensures m == live - (before.Keys - wanted.Keys) && ByName(m)
    {
      m := live;
      var rest := before.Keys;
      while rest != {}
        invariant rest <= before.Keys
        invariant m == live - (before.Keys - rest - wanted.Keys)
        decreases rest
      {
        var name :| name in rest;
        rest := rest - {name};
        if name !in wanted {
          assert before.Keys - rest - wanted.Keys == (before.Keys - (rest + {name}) - wanted.Keys) + {name};
          m := m - {name};
        } else {
          assert before.Keys - rest - wanted.Keys == before.Keys - (rest + {name}) - wanted.Keys;
        }
      }
      assert before.Keys - {} == before.Keys;
    }

    /** Enters, one by one, the wanted listeners. */
    static method AddAll(wanted: Listeners, live: Listeners) returns (m: Listeners)
      requires ByName(live) && ByName(wanted)
      ensures m == live + wanted && ByName(m)
    {
      m := live;
      var rest := wanted.Keys;
      while rest != {}
        invariant rest <= wanted.Keys
        invariant m == live + (wanted - rest)
        decreases rest
      {
        var name :| name in rest;
        m := m[name := wanted[name]];
        assert wanted - (rest - {name}) == (wanted - rest)[name := wanted[name]];
        rest := rest - {name};
      }
      assert wanted - {} == wanted;
    }

    method NeedReconcileK8sGateway() returns (need: bool)
      requires k8sGateway.Some?
      ensures need == NeedReconcile(gateway.LastApplied(), gateway.spec, Mapping(k8sGateway.value.1.listeners))
    {
      var wanted := ListToMapping(gateway.spec.listeners);
      var live := ListToMapping(k8sGateway.value.1.listeners);
      var rest := wanted.Keys;
      while rest != {}
        invariant rest <= wanted.Keys
        invariant forall n :: n in wanted && n !in rest ==> n in live && live[n] == wanted[n]
        decreases rest
      {
        var name :| name in rest;
        rest := rest - {name};
        if name !in live || wanted[name] != live[name] {
          return true;
        }
      }
      if gateway.LastApplied().None? {
        return true;
      }
      need := gateway.LastApplied().value.listeners != gateway.spec.listeners;
    }

    /** Takes back what `spec` put into its gateway, or deletes the gateway it defined. */
    method CleanK8sGatewayResources(spec: GatewaySpec)
      modifies this`gateways
      ensures Live(gateways) == Cleaned(spec, Live(old(gateways)))
      ensures forall k :: k in gateways ==>
        && k in old(gateways)
        && gateways[k] == (if spec.ref != Some(k) then old(gateways)[k]
                           else old(gateways)[k].(listeners := gateways[k].listeners, injected := None))
    {
      if spec.ref.Some? {
        var key := spec.ref.value;
        if key !in gateways {
          return;
        }
        var k8s := gateways[key];
        var listeners := RemainingList(spec.listeners, k8s.listeners);
        k8s := k8s.(listeners := listeners, injected := None);
        LiveWith(gateways, key, k8s);
        gateways := gateways[key := k8s];
      }
      if spec.def.Some? {
        LiveWithout(gateways, spec.def.value.key);
        gateways := gateways - {spec.def.value.key};
      }
    }

    method CleanExternalResources()
      modifies this`gateways
      ensures Live(gateways) == CleanedExternal(gateway.LastApplied(), gateway.spec, Live(old(gateways)))
    {
      if gateway.LastApplied().None? {
        return;
      }
      var last := gateway.LastApplied().value;
      if last.ref != gateway.spec.ref || last.def != gateway.spec.def {
        CleanK8sGatewayResources(last);
      }
    }

    /** Merges into the gateway at `key` if the guard asks for it. */
    method MergeInto(key: Key)
      requires key in gateways
      modifies this`gateways, this`k8sGateway
      ensures Live(gateways) == Live(old(gateways))[key :=
        Merge(LastListeners(gateway.LastApplied()), Mapping(gateway.spec.listeners), Live(old(gateways))[key])]
      ensures key in gateways && k8sGateway == Some((key, gateways[key]))
    {
      k8sGateway := Some((key, gateways[key]));
      var need := NeedReconcileK8sGateway();
      if need {
        ReconcileK8sGateway();
      } else {
        GuardSkipsOnlyIdleMerges(gateway.LastApplied(), gateway.spec, Mapping(gateways[key].listeners));
      }
    }

    method CreateOrUpdateGateway() returns (ok: bool)
      modifies this`gateways, this`k8sGateway
      ensures ok == Completes(gateway.spec, Live(old(gateways)))
      ensures ok ==> Live(gateways) == Applied(gateway.LastApplied(), gateway.spec, Live(old(gateways)))
      ensures !ok ==> gateways == old(gateways)
    {
      var spec := gateway.spec;
      if spec.ref.Some? {
        if spec.ref.value !in gateways {
          return false;
        }
        MergeInto(spec.ref.value);
      }
      if spec.def.Some? {
        var key := spec.def.value.key;
        if key in gateways {
          MergeInto(key);
        } else {
          CreateK8sGateway();
        }
      }
      ok := true;
    }

    method CreateK8sGateway()
      requires gateway.spec.def.Some? && gateway.spec.def.value.key !in gateways
      modifies this`gateways, this`k8sGateway
      ensures Live(gateways) == Live(old(gateways))[gateway.spec.def.value.key := Mapping(gateway.spec.listeners)]
      ensures var def := gateway.spec.def.value;
        gateways == old(gateways)[def.key :=
          K8sGateway(def.className, gateway.spec.listeners, Some(gateway.spec.listeners))]
    {
      var def := gateway.spec.def.value;
      var k8s := K8sGateway(def.className, gateway.spec.listeners, Some(gateway.spec.listeners));
      gateways := gateways[def.key := k8s];
      k8sGateway := Some((def.key, k8s));
    }

    /** Records the specification as applied. An object without annotations has no map to record it in. */
    method UpdateGatewayAnnotations() returns (panics: bool)
      modifies this`gateway
      ensures panics <==> old(gateway).annotations.None? && old(gateway).spec != ZERO_SPEC
      ensures panics ==> gateway == old(gateway)
      ensures !panics ==>
        && gateway == old(gateway).(annotations := gateway.annotations)
        && gateway.LastApplied() == Annotated(old(gateway).LastApplied(), old(gateway).spec)
    {
      var oldSpec := ZERO_SPEC;
      if gateway.LastApplied().Some? {
        oldSpec := gateway.LastApplied().value;
      }
      if oldSpec == gateway.spec {
        return false;
      }
      if gateway.annotations.None? {
        return true;
      }
      gateway := gateway.(annotations := Some(Some(gateway.spec)));
      panics := false;
    }

    /** One attempt, up to the Service that fronts the gateway. */
    method Reconcile() returns (outcome: Outcome)
      modifies this
      ensures gateway.spec == old(gateway).spec && gateway.deleting == old(gateway).deleting
      ensures old(gateway).deleting ==>
        && outcome == Completed && !gateway.finalizer && gateway.annotations == old(gateway).annotations
        && Live(gateways) == if old(gateway).finalizer then Cleaned(gateway.spec, Live(old(gateways))) else Live(old(gateways))
      ensures !old(gateway).deleting ==>
        && gateway.finalizer
        && var last, clean := old(gateway).LastApplied(), CleanedExternal(old(gateway).LastApplied(), gateway.spec, Live(old(gateways)));
          && (outcome == Unsuccessful <==> !Completes(gateway.spec, clean))
          && (outcome == Panicked <==>
                Completes(gateway.spec, clean) && old(gateway).annotations.None? && gateway.spec != ZERO_SPEC)
          && Live(gateways) == (if outcome == Unsuccessful then clean else Applied(last, gateway.spec, clean))
          && gateway.LastApplied() == (if outcome == Completed then Annotated(last, gateway.spec) else last)
    {
      if gateway.deleting {
        if gateway.finalizer {
          CleanK8sGatewayResources(gateway.spec);
          gateway := gateway.(finalizer := false);
        }
        return Completed;
      }
      if !gateway.finalizer {
        gateway := gateway.(finalizer := true);
      }
      CleanExternalResources();
      var ok := CreateOrUpdateGateway();
      if !ok {
        return Unsuccessful;
      }
      var panics := UpdateGatewayAnnotations();
      outcome := if panics then Panicked else Completed;
    }
  }
}

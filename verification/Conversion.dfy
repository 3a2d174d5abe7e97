/** Converting the serving part of a Function between version v1beta1 (the spoke) and v1beta2 (the hub). A nil
    list or map is an empty one, except in the plugins, where the code tells them apart. */
module Conversion {
  import opened Api
  import Tracing

  /** A conversion ends with a value, with an annotation that does not parse, or with a nil dereference. */
  datatype Outcome<+T> = Done(value: T) | ParseError | Panic

  /** A Dapr component description: its type, and everything else about it. */
  datatype ComponentSpec = ComponentSpec(kind: string, rest: string)

  /** Entries may be nil. */
  type Components = map<string, Option<ComponentSpec>>

  type Params = map<string, string>

  datatype Route = Route(gateway: Option<(string, Option<string>)>, hostnames: seq<string>, rules: seq<string>)

  // ---------- The spoke ----------

  datatype Runtime = Knative | Async | Other(name: string)

  datatype DaprIO = DaprIO(name: string, component: string, topic: string, params: Params, operation: string)

  datatype SpokeScaledObject = SpokeScaledObject(
    workloadType: string, polling: Option<int>, cooldown: Option<int>, min: Option<int>, max: Option<int>,
    advanced: Option<string>)

  datatype SpokeScaledJob = SpokeScaledJob(
    restart: Option<string>, polling: Option<int>, successful: Option<int>, failed: Option<int>, max: Option<int>,
    strategy: string)

  datatype SpokeKeda = SpokeKeda(scaledObject: Option<SpokeScaledObject>, scaledJob: Option<SpokeScaledJob>)

  datatype SpokeScale = SpokeScale(max: Option<int>, min: Option<int>, keda: Option<SpokeKeda>, knative: Option<Params>)

  datatype SpokeTrigger = SpokeTrigger(scale: string, targetKind: Option<string>)

  /** `common` stands for what is copied unchanged both ways: parameters, labels, annotations, template, timeout. */
  datatype SpokeServing = SpokeServing(
    common: string, runtime: Runtime, bindings: Components, pubsub: Components, inputs: seq<DaprIO>,
    outputs: seq<DaprIO>, scale: Option<SpokeScale>, triggers: seq<SpokeTrigger>, states: Components)

  datatype Spoke = Spoke(annotations: map<string, string>, port: Option<int>, route: Option<Route>,
                         serving: Option<SpokeServing>)

  // ---------- The hub ----------

  datatype DaprRef = DaprRef(name: string, kind: string, topic: string)

  datatype HttpTrigger = HttpTrigger(port: Option<int>, route: Option<Route>, engine: Option<string>)

  datatype DaprTrigger = DaprTrigger(ref: Option<DaprRef>, inputName: string)

  datatype HubTriggers = HubTriggers(http: Option<HttpTrigger>, dapr: seq<DaprTrigger>, inputs: seq<string>)

  datatype DaprOutput = DaprOutput(ref: Option<DaprRef>, metadata: Params, operation: string, outputName: string)

  datatype HubOutput = HubOutput(dapr: Option<DaprOutput>)

  datatype HubScaledObject = HubScaledObject(
    polling: Option<int>, cooldown: Option<int>, advanced: Option<string>, fallback: Option<string>)

  datatype HubScaledJob = HubScaledJob(
    restart: Option<string>, polling: Option<int>, successful: Option<int>, failed: Option<int>, strategy: string)

  datatype HubKeda = HubKeda(http: Option<string>, scaledObject: Option<HubScaledObject>,
                             scaledJob: Option<HubScaledJob>, triggers: seq<string>)

  datatype HubScale = HubScale(max: Option<int>, min: Option<int>, keda: Option<HubKeda>, knative: Option<Params>)

  datatype Policy = NoPolicy | Append | Override

  datatype Hooks = Hooks(pre: seq<string>, post: seq<string>, policy: Policy)

  /** A state, if its pointer is not nil, holds a component description or refers to an existing one. */
  datatype HubServing = HubServing(
    common: string, bindings: Components, pubsub: Components, triggers: Option<HubTriggers>,
    scale: Option<HubScale>, workloadType: string, outputs: seq<HubOutput>,
    states: map<string, Option<Option<ComponentSpec>>>, hooks: Option<Hooks>, tracing: Option<Tracing.Config>)

  datatype Hub = Hub(annotations: map<string, string>, serving: Option<HubServing>)

  // ---------- The annotations ----------

  const PLUGINS := "plugins"
  const TRACING := "plugins.tracing"

  datatype Plugins = Plugins(order: Option<seq<string>>, pre: Option<seq<string>>, post: Option<seq<string>>)

  /** YAML for both annotations. */
  datatype Codec = Codec(
    printPlugins: Plugins -> string,
    parsePlugins: string -> Option<Plugins>,
    printTracing: Tracing.Config -> string,
    parseTracing: string -> Option<Tracing.Config>)

  function Trimmed(list: Option<seq<string>>): Option<seq<string>> {
    if list == Some([]) then None else list
  }

  /** Printing leaves out empty lists; apart from that, parsing undoes it. Nothing prints as the empty text. */
  ghost predicate Faithful(c: Codec) {
    && (forall p {:trigger c.printPlugins(p)} :: c.printPlugins(p) != ""
          && c.parsePlugins(c.printPlugins(p)) == Some(Plugins(Trimmed(p.order), Trimmed(p.pre), Trimmed(p.post))))
    && (forall t {:trigger c.printTracing(t)} :: c.printTracing(t) != ""
          && c.parseTracing(c.printTracing(t)) == Some(t))
  }

  function Text(annotations: map<string, string>, key: string): string {
    if key in annotations then annotations[key] else ""
  }

  // ---------- Spoke to hub ----------

  /** Of a binding and a pubsub component with the same name the binding counts. */
  function GetDaprComponent(bindings: Components, pubsub: Components, name: string): Option<ComponentSpec> {
    if name in bindings && bindings[name].Some? then bindings[name]
    else if name in pubsub then pubsub[name]
    else None
  }

  function ConvertRoute(route: Option<Route>): Option<Route> {
    if route.None? then None else Some(Route(route.value.gateway, route.value.hostnames, route.value.rules))
  }

  function KindOf(component: Option<ComponentSpec>): string {
    if component.Some? then component.value.kind else ""
  }

  function TriggerTo(bindings: Components, pubsub: Components, i: DaprIO): DaprTrigger {
    DaprTrigger(Some(DaprRef(i.component, KindOf(GetDaprComponent(bindings, pubsub, i.component)), i.topic)), i.name)
  }

  function DaprTriggersTo(bindings: Components, pubsub: Components, inputs: seq<DaprIO>): (ts: seq<DaprTrigger>)
    ensures |ts| == |inputs|
    ensures forall i :: 0 <= i < |ts| ==> ts[i] == TriggerTo(bindings, pubsub, inputs[i])
  {
    seq(|inputs|, i requires 0 <= i < |inputs| => TriggerTo(bindings, pubsub, inputs[i]))
  }

  function TriggersTo(x: Spoke, s: SpokeServing): HubTriggers {
    if s.runtime == Knative then HubTriggers(Some(HttpTrigger(x.port, ConvertRoute(x.route), None)), [], [])
    else if s.runtime == Async then HubTriggers(None, DaprTriggersTo(s.bindings, s.pubsub, s.inputs), [])
    else HubTriggers(None, [], [])
  }

  function OutputTo(component: ComponentSpec, o: DaprIO): HubOutput {
    HubOutput(Some(DaprOutput(Some(DaprRef(o.component, component.kind, o.topic)), o.params, o.operation, o.name)))
  }

  /** Outputs of unknown components are dropped. */
  function OutputsTo(bindings: Components, pubsub: Components, outputs: seq<DaprIO>): seq<HubOutput> {
    if outputs == [] then []
    else
      var init, o := outputs[..|outputs| - 1], outputs[|outputs| - 1];
      var component := GetDaprComponent(bindings, pubsub, o.component);
      OutputsTo(bindings, pubsub, init) + if component.Some? then [OutputTo(component.value, o)] else []
  }

  function ScaleTriggersTo(triggers: seq<SpokeTrigger>): (ts: seq<string>)
    ensures |ts| == |triggers|
    ensures forall i :: 0 <= i < |ts| ==> ts[i] == triggers[i].scale
  {
    seq(|triggers|, i requires 0 <= i < |triggers| => triggers[i].scale)
  }

  /** The value of the more specific place, if it is set. */
  function Overridden(general: Option<int>, specific: Option<int>): Option<int> {
    if specific.Some? then specific else general
  }

  function WorkloadTypeTo(k: SpokeKeda): string {
    if k.scaledJob.Some? then "Job"
    else if k.scaledObject.None? then ""
    else if k.scaledObject.value.workloadType != "" then k.scaledObject.value.workloadType
    else "Deployment"
  }

  /** A scaled job takes its polling interval from the scaled object, which must therefore exist. */
  predicate KedaPanics(k: SpokeKeda) {
    k.scaledJob.Some? && k.scaledObject.None?
  }

  function KedaTo(k: SpokeKeda, triggers: seq<SpokeTrigger>): HubKeda
    requires !KedaPanics(k)
  {
    HubKeda(None,
      if k.scaledObject.None? then None
      else var o := k.scaledObject.value; Some(HubScaledObject(o.polling, o.cooldown, o.advanced, None)),
      if k.scaledJob.None? then None
      else
        var j := k.scaledJob.value;
        Some(HubScaledJob(j.restart, k.scaledObject.value.polling, j.successful, j.failed, j.strategy)),
      ScaleTriggersTo(triggers))
  }

  predicate ScalePanics(s: Option<SpokeScale>) {
    s.Some? && s.value.keda.Some? && KedaPanics(s.value.keda.value)
  }

  /** The scale options, and the workload type. */
  function ScaleTo(s: Option<SpokeScale>, triggers: seq<SpokeTrigger>): (Option<HubScale>, string)
    requires !ScalePanics(s)
  {
    if s.None? then (None, "")
    else if s.value.keda.None? then (Some(HubScale(s.value.max, s.value.min, None, s.value.knative)), "")
    else
      var k := s.value.keda.value;
      var ofObject := if k.scaledObject.Some? then k.scaledObject.value.max else None;
      var ofJob := if k.scaledJob.Some? then k.scaledJob.value.max else None;
      var least := if k.scaledObject.Some? then k.scaledObject.value.min else None;
      (Some(HubScale(Overridden(Overridden(s.value.max, ofObject), ofJob), Overridden(s.value.min, least),
                     Some(KedaTo(k, triggers)), s.value.knative)),
       WorkloadTypeTo(k))
  }

  function StatesTo(states: Components): map<string, Option<Option<ComponentSpec>>> {
    map n | n in states :: Some(states[n])
  }

  function Reversed(list: seq<string>): (r: seq<string>)
    ensures |r| == |list|
    ensures forall i :: 0 <= i < |r| ==> r[i] == list[|list| - 1 - i]
  {
    seq(|list|, i requires 0 <= i < |list| => list[|list| - 1 - i])
  }

  /** The order stands for both lists, once as it is and once reversed; explicit lists have precedence. */
  function HooksTo(p: Plugins): Hooks {
    Hooks(if p.pre.Some? then p.pre.value else if p.order.Some? then p.order.value else [],
          if p.post.Some? then p.post.value else if p.order.Some? then Reversed(p.order.value) else [],
          Override)
  }

  predicate TracingFails(c: Codec, annotations: map<string, string>) {
    Text(annotations, TRACING) != "" && c.parseTracing(Text(annotations, TRACING)).None?
  }

  predicate PluginsFail(c: Codec, annotations: map<string, string>) {
    Text(annotations, PLUGINS) != "" && c.parsePlugins(Text(annotations, PLUGINS)).None?
  }

  function TracingTo(c: Codec, annotations: map<string, string>): Option<Tracing.Config> {
    if Text(annotations, TRACING) == "" then None else c.parseTracing(Text(annotations, TRACING))
  }

  function PluginsTo(c: Codec, annotations: map<string, string>): Option<Hooks> {
    if Text(annotations, PLUGINS) == "" then None
    else
      var p := c.parsePlugins(Text(annotations, PLUGINS));
      if p.None? then None else Some(HooksTo(p.value))
  }

  function ServingTo(c: Codec, x: Spoke, s: SpokeServing): HubServing
    requires !ScalePanics(s.scale)
  {
    var (scale, workloadType) := ScaleTo(s.scale, s.triggers);
    HubServing(s.common, s.bindings, s.pubsub, Some(TriggersTo(x, s)), scale, workloadType,
               OutputsTo(s.bindings, s.pubsub, s.outputs), StatesTo(s.states),
               PluginsTo(c, x.annotations), TracingTo(c, x.annotations))
  }

  function To(c: Codec, x: Spoke): Outcome<Hub> {
    if x.serving.None? then Done(Hub(x.annotations, None))
    else if ScalePanics(x.serving.value.scale) then Panic
    else if TracingFails(c, x.annotations) || PluginsFail(c, x.annotations) then ParseError
    else Done(Hub(x.annotations, Some(ServingTo(c, x, x.serving.value))))
  }

  // ---------- Hub to spoke ----------

  predicate TriggersPanic(t: Option<HubTriggers>) {
    t.Some? && t.value.http.None? && exists i :: 0 <= i < |t.value.dapr| && t.value.dapr[i].ref.None?
  }

  predicate OutputPanics(o: HubOutput) {
    o.dapr.None? || o.dapr.value.ref.None?
  }

  predicate OutputsPanic(os: seq<HubOutput>) {
    exists i :: 0 <= i < |os| && OutputPanics(os[i])
  }

  predicate StatesPanic(states: map<string, Option<Option<ComponentSpec>>>) {
    exists n :: n in states && states[n].None?
  }

  function InputFrom(t: DaprTrigger): DaprIO
    requires t.ref.Some?
  {
    DaprIO(t.inputName, t.ref.value.name, t.ref.value.topic, map[], "")
  }

  function InputsFrom(ts: seq<DaprTrigger>): (inputs: seq<DaprIO>)
    requires forall i :: 0 <= i < |ts| ==> ts[i].ref.Some?
    ensures |inputs| == |ts|
    ensures forall i :: 0 <= i < |ts| ==> inputs[i] == InputFrom(ts[i])
  {
    seq(|ts|, i requires 0 <= i < |ts| => InputFrom(ts[i]))
  }

  /** Runtime, port, route and inputs. */
  function TriggersFrom(t: Option<HubTriggers>): (Runtime, Option<int>, Option<Route>, seq<DaprIO>)
    requires !TriggersPanic(t)
  {
    if t.None? then (Other(""), None, None, [])
    else if t.value.http.Some? then (Knative, t.value.http.value.port, ConvertRoute(t.value.http.value.route), [])
    else if t.value.dapr != [] then (Async, None, None, InputsFrom(t.value.dapr))
    else (Other(""), None, None, [])
  }

  function OutputFrom(o: HubOutput): DaprIO
    requires !OutputPanics(o)
  {
    var d := o.dapr.value;
    DaprIO(d.outputName, d.ref.value.name, d.ref.value.topic, d.metadata, d.operation)
  }

  function OutputsFrom(os: seq<HubOutput>): (outputs: seq<DaprIO>)
    requires !OutputsPanic(os)
    ensures |outputs| == |os|
    ensures forall i :: 0 <= i < |os| ==> outputs[i] == OutputFrom(os[i])
  {
    seq(|os|, i requires 0 <= i < |os| => OutputFrom(os[i]))
  }

  function ScaleTriggersFrom(triggers: seq<string>): (ts: seq<SpokeTrigger>)
    ensures |ts| == |triggers|
    ensures forall i :: 0 <= i < |ts| ==> ts[i] == SpokeTrigger(triggers[i], None)
  {
    seq(|triggers|, i requires 0 <= i < |triggers| => SpokeTrigger(triggers[i], None))
  }

  function KedaFrom(s: HubScale, k: HubKeda, workloadType: string): SpokeKeda {
    SpokeKeda(
      if k.scaledObject.None? then None
      else
        var o := k.scaledObject.value;
        Some(SpokeScaledObject(workloadType, o.polling, o.cooldown, s.min, s.max, o.advanced)),
      if k.scaledJob.None? then None
      else
        var j := k.scaledJob.value;
        Some(SpokeScaledJob(j.restart, j.polling, j.successful, j.failed, s.max, j.strategy)))
  }

  /** The scale options, and the triggers that were kept in them. */
  function ScaleFrom(s: Option<HubScale>, workloadType: string): (Option<SpokeScale>, seq<SpokeTrigger>) {
    if s.None? then (None, [])
    else if s.value.keda.None? then (Some(SpokeScale(s.value.max, s.value.min, None, s.value.knative)), [])
    else
      var k := s.value.keda.value;
      (Some(SpokeScale(s.value.max, s.value.min, Some(KedaFrom(s.value, k, workloadType)), s.value.knative)),
       ScaleTriggersFrom(k.triggers))
  }

  function StatesFrom(states: map<string, Option<Option<ComponentSpec>>>): Components
    requires !StatesPanic(states)
  {
    map n | n in states :: assert states[n].Some?; states[n].value
  }

  /** The list as the marshaller sees it: whether an empty one was nil makes no difference to it. */
  function PluginsFrom(h: Hooks): Plugins {
    Plugins(None, Some(h.pre), Some(h.post))
  }

  function AnnotationsFrom(c: Codec, annotations: map<string, string>, s: HubServing): map<string, string> {
    var hooked := if s.hooks.None? then annotations
      else annotations[PLUGINS := c.printPlugins(PluginsFrom(s.hooks.value))];
    if s.tracing.None? then hooked else hooked[TRACING := c.printTracing(s.tracing.value)]
  }

  predicate ServingPanics(s: HubServing) {
    TriggersPanic(s.triggers) || OutputsPanic(s.outputs) || StatesPanic(s.states)
  }

  function From(c: Codec, y: Hub): Outcome<Spoke> {
    if y.serving.None? then Done(Spoke(y.annotations, None, None, None))
    else
      var s := y.serving.value;
      if ServingPanics(s) then Panic
      else
        var (runtime, port, route, inputs) := TriggersFrom(s.triggers);
        var (scale, triggers) := ScaleFrom(s.scale, s.workloadType);
        Done(Spoke(AnnotationsFrom(c, y.annotations, s), port, route,
          Some(SpokeServing(s.common, runtime, s.bindings, s.pubsub, inputs, OutputsFrom(s.outputs), scale, triggers,
                            StatesFrom(s.states)))))
  }

  // ---------- The normal form ----------

  lemma TriggersAgain(x: Spoke, s: SpokeServing, z: Spoke, w: SpokeServing)
    requires w.bindings == s.bindings && w.pubsub == s.pubsub
    requires !TriggersPanic(Some(TriggersTo(x, s)))
    requires (w.runtime, z.port, z.route, w.inputs) == TriggersFrom(Some(TriggersTo(x, s)))
    ensures TriggersTo(z, w) == TriggersTo(x, s)
  {
    if s.runtime == Async && s.inputs != [] {
      assert DaprTriggersTo(w.bindings, w.pubsub, w.inputs) == DaprTriggersTo(s.bindings, s.pubsub, s.inputs);
    }
  }

  lemma {:induction false} OutputsDoNotPanic(bindings: Components, pubsub: Components, outputs: seq<DaprIO>)
    ensures !OutputsPanic(OutputsTo(bindings, pubsub, outputs))
  {
    if outputs != [] {
      OutputsDoNotPanic(bindings, pubsub, outputs[..|outputs| - 1]);
    }
  }

  /** What was kept once is kept again. */
  lemma {:induction false} OutputsAgain(bindings: Components, pubsub: Components, outputs: seq<DaprIO>)
    requires !OutputsPanic(OutputsTo(bindings, pubsub, outputs))
    ensures OutputsTo(bindings, pubsub, OutputsFrom(OutputsTo(bindings, pubsub, outputs)))
      == OutputsTo(bindings, pubsub, outputs)
  {
    if outputs != [] {
      var init, o := outputs[..|outputs| - 1], outputs[|outputs| - 1];
      OutputsDoNotPanic(bindings, pubsub, init);
      OutputsAgain(bindings, pubsub, init);
      var kept := OutputsTo(bindings, pubsub, init);
      var component := GetDaprComponent(bindings, pubsub, o.component);
      if component.Some? {
        var all := kept + [OutputTo(component.value, o)];
        assert OutputsFrom(all)[..|kept|] == OutputsFrom(kept);
      } else {
        assert kept + [] == kept;
      }
    }
  }

  lemma ScaleAgain(s: Option<SpokeScale>, triggers: seq<SpokeTrigger>)
    requires !ScalePanics(s)
    ensures var (hub, workloadType) := ScaleTo(s, triggers);
      var (scale, kept) := ScaleFrom(hub, workloadType);
      !ScalePanics(scale) && ScaleTo(scale, kept) == (hub, workloadType)
  {
    if s.Some? && s.value.keda.Some? {
      var (hub, workloadType) := ScaleTo(s, triggers);
      var (scale, kept) := ScaleFrom(hub, workloadType);
      assert ScaleTriggersTo(kept) == ScaleTriggersTo(triggers);
    }
  }

  lemma AnnotationsAgain(c: Codec, annotations: map<string, string>, s: HubServing)
    requires Faithful(c) && !TracingFails(c, annotations) && !PluginsFail(c, annotations)
    requires s.hooks == PluginsTo(c, annotations) && s.tracing == TracingTo(c, annotations)
    ensures var again := AnnotationsFrom(c, annotations, s);
      && !TracingFails(c, again) && !PluginsFail(c, again)
      && PluginsTo(c, again) == s.hooks && TracingTo(c, again) == s.tracing
      && AnnotationsFrom(c, again, s) == again
  {
    assert |PLUGINS| != |TRACING|;
    var again := AnnotationsFrom(c, annotations, s);
    if s.hooks.Some? {
      assert again[PLUGINS] == c.printPlugins(PluginsFrom(s.hooks.value));
    } else {
      assert Text(again, PLUGINS) == Text(annotations, PLUGINS);
    }
    if s.tracing.Some? {
      assert again[TRACING] == c.printTracing(s.tracing.value);
    } else {
      assert Text(again, TRACING) == Text(annotations, TRACING);
    }
  }

  lemma NeverPanicsBack(c: Codec, x: Spoke)
    requires To(c, x).Done? && x.serving.Some?
    ensures !ServingPanics(To(c, x).value.serving.value)
  {
    var s := x.serving.value;
    OutputsDoNotPanic(s.bindings, s.pubsub, s.outputs);
  }

  /** Main result: what a conversion to the hub yields is a normal form. Converted back to the spoke and to the
      hub again, its serving part is the same; and the spoke it was converted back to is a normal form as well. */
  lemma HubNormalForm(c: Codec, x: Spoke)
    requires Faithful(c) && To(c, x).Done?
    ensures var y := To(c, x).value;
      && From(c, y).Done?
      && var z := From(c, y).value;
        && To(c, z).Done?
        && To(c, z).value.serving == y.serving
        && From(c, To(c, z).value) == Done(z)
  {
    if x.serving.Some? {
      NeverPanicsBack(c, x);
      var y, s := To(c, x).value, x.serving.value;
      var z := From(c, y).value;
      var w := z.serving.value;
      TriggersAgain(x, s, z, w);
      OutputsAgain(s.bindings, s.pubsub, s.outputs);
      ScaleAgain(s.scale, s.triggers);
      AnnotationsAgain(c, x.annotations, y.serving.value);
      assert StatesTo(w.states) == StatesTo(s.states);
    }
  }

  // ---------- What the way to the hub and back costs the spoke ----------

  predicate Known(bindings: Components, pubsub: Components, o: DaprIO) {
    GetDaprComponent(bindings, pubsub, o.component).Some?
  }

  function KnownOutputs(bindings: Components, pubsub: Components, outputs: seq<DaprIO>): (known: seq<DaprIO>)
    ensures |known| <= |outputs|
  {
    if outputs == [] then []
    else
      KnownOutputs(bindings, pubsub, outputs[..|outputs| - 1])
      + if Known(bindings, pubsub, outputs[|outputs| - 1]) then [outputs[|outputs| - 1]] else []
  }

  /** Of the outputs exactly those of known components come back, unchanged and in order. */
  lemma {:induction false} OutputsComeBack(bindings: Components, pubsub: Components, outputs: seq<DaprIO>)
    requires !OutputsPanic(OutputsTo(bindings, pubsub, outputs))
    ensures OutputsFrom(OutputsTo(bindings, pubsub, outputs)) == KnownOutputs(bindings, pubsub, outputs)
  {
    if outputs != [] {
      var init, o := outputs[..|outputs| - 1], outputs[|outputs| - 1];
      OutputsDoNotPanic(bindings, pubsub, init);
      OutputsComeBack(bindings, pubsub, init);
      var kept := OutputsTo(bindings, pubsub, init);
      var component := GetDaprComponent(bindings, pubsub, o.component);
      if component.Some? {
        var all := kept + [OutputTo(component.value, o)];
        assert OutputsFrom(all) == OutputsFrom(kept) + [o];
      } else {
        assert kept + [] == kept;
      }
    }
  }

  lemma {:induction false} AllKnownComeBack(bindings: Components, pubsub: Components, outputs: seq<DaprIO>)
    requires forall i :: 0 <= i < |outputs| ==> Known(bindings, pubsub, outputs[i])
    ensures KnownOutputs(bindings, pubsub, outputs) == outputs
  {
    if outputs != [] {
      AllKnownComeBack(bindings, pubsub, outputs[..|outputs| - 1]);
      assert outputs == outputs[..|outputs| - 1] + [outputs[|outputs| - 1]];
    }
  }

  lemma {:induction false} UnknownDoesNotComeBack(bindings: Components, pubsub: Components, outputs: seq<DaprIO>, i: nat)
    requires i < |outputs| && !Known(bindings, pubsub, outputs[i])
    ensures |KnownOutputs(bindings, pubsub, outputs)| < |outputs|
  {
    if i < |outputs| - 1 {
      UnknownDoesNotComeBack(bindings, pubsub, outputs[..|outputs| - 1], i);
    }
  }

  lemma AllComeBackWhenKnown(bindings: Components, pubsub: Components, outputs: seq<DaprIO>)
    ensures KnownOutputs(bindings, pubsub, outputs) == outputs
      <==> forall i :: 0 <= i < |outputs| ==> Known(bindings, pubsub, outputs[i])
  {
    if i: nat :| i < |outputs| && !Known(bindings, pubsub, outputs[i]) {
      UnknownDoesNotComeBack(bindings, pubsub, outputs, i);
    } else {
      AllKnownComeBack(bindings, pubsub, outputs);
    }
  }

  lemma TriggersComeBack(x: Spoke, s: SpokeServing)
    requires !TriggersPanic(Some(TriggersTo(x, s)))
    ensures var (runtime, port, route, inputs) := TriggersFrom(Some(TriggersTo(x, s)));
      && (s.runtime == Knative ==> runtime == Knative && port == x.port && route == x.route)
      && (s.runtime == Async && s.inputs != [] ==>
            runtime == Async && |inputs| == |s.inputs|
            && forall i :: 0 <= i < |s.inputs| ==> inputs[i] == s.inputs[i].(params := map[], operation := ""))
  {
  }

  lemma ScalersComeBack(s: SpokeScale, triggers: seq<SpokeTrigger>)
    requires !ScalePanics(Some(s)) && s.keda.Some?
    ensures var (hub, workloadType) := ScaleTo(Some(s), triggers);
      var (_, back) := ScaleFrom(hub, workloadType);
      |back| == |triggers| && forall i :: 0 <= i < |triggers| ==> back[i] == triggers[i].(targetKind := None)
  {
  }

  /** Main result on losses: components and states come back as they were; port and route for a synchronous
      function; name, component and topic of every input for an asynchronous one; and all outputs exactly if all
      their components are known. */
  lemma WhatTheSpokeKeeps(c: Codec, x: Spoke)
    requires To(c, x).Done? && x.serving.Some?
    ensures From(c, To(c, x).value).Done?
    ensures var z, s := From(c, To(c, x).value).value, x.serving.value;
      && z.serving.Some?
      && var w := z.serving.value;
        && w.common == s.common && w.bindings == s.bindings && w.pubsub == s.pubsub && w.states == s.states
        && (s.runtime == Knative ==> w.runtime == Knative && z.port == x.port && z.route == x.route)
        && (s.runtime == Async && s.inputs != [] ==>
              w.runtime == Async && |w.inputs| == |s.inputs|
              && forall i :: 0 <= i < |s.inputs| ==> w.inputs[i] == s.inputs[i].(params := map[], operation := ""))
        && (w.outputs == s.outputs <==> forall i :: 0 <= i < |s.outputs| ==> Known(s.bindings, s.pubsub, s.outputs[i]))
        && (s.scale.Some? && s.scale.value.keda.Some? ==>
              |w.triggers| == |s.triggers|
              && forall i :: 0 <= i < |s.triggers| ==> w.triggers[i] == s.triggers[i].(targetKind := None))
  {
    NeverPanicsBack(c, x);
    var s := x.serving.value;
    TriggersComeBack(x, s);
    OutputsComeBack(s.bindings, s.pubsub, s.outputs);
    AllComeBackWhenKnown(s.bindings, s.pubsub, s.outputs);
    if s.scale.Some? && s.scale.value.keda.Some? {
      ScalersComeBack(s.scale.value, s.triggers);
    }
    assert StatesFrom(StatesTo(s.states)) == s.states;
  }

  /** The replica bounds in effect are those of the most specific place that sets them, also after coming back. */
  lemma BoundsComeBack(s: SpokeScale, triggers: seq<SpokeTrigger>)
    requires !ScalePanics(Some(s)) && s.keda.Some?
    ensures var (hub, workloadType) := ScaleTo(Some(s), triggers);
      var (back, _) := ScaleFrom(hub, workloadType);
      var k := s.keda.value;
      && back.Some? && back.value.knative == s.knative
      && back.value.max ==
           (if k.scaledJob.Some? && k.scaledJob.value.max.Some? then k.scaledJob.value.max
            else if k.scaledObject.Some? && k.scaledObject.value.max.Some? then k.scaledObject.value.max
            else s.max)
      && back.value.min ==
           (if k.scaledObject.Some? && k.scaledObject.value.min.Some? then k.scaledObject.value.min else s.min)
  {
  }

  // ---------- What becomes of every field on the way to the hub ----------

  predicate IsKnown(bindings: Components, pubsub: Components, name: string) {
    (name in bindings && bindings[name].Some?) || (name in pubsub && pubsub[name].Some?)
  }

  /** The type of a component: a binding comes before a pubsub component of the same name. */
  function KindNamed(bindings: Components, pubsub: Components, name: string): string {
    if name in bindings && bindings[name].Some? then bindings[name].value.kind
    else if name in pubsub && pubsub[name].Some? then pubsub[name].value.kind
    else ""
  }

  lemma ComponentsAreFound(bindings: Components, pubsub: Components, name: string)
    ensures GetDaprComponent(bindings, pubsub, name).Some? <==> IsKnown(bindings, pubsub, name)
    ensures KindOf(GetDaprComponent(bindings, pubsub, name)) == KindNamed(bindings, pubsub, name)
  {
  }

  /** A synchronous function gets its port and route; an asynchronous one a trigger for every input, with the type of
      the component it refers to; any other none. */
  predicate RightTriggers(x: Spoke, s: SpokeServing, t: HubTriggers) {
    && t.inputs == []
    && (s.runtime == Knative ==> t.http == Some(HttpTrigger(x.port, x.route, None)) && t.dapr == [])
    && (s.runtime == Async ==>
          && t.http.None? && |t.dapr| == |s.inputs|
          && forall i :: 0 <= i < |s.inputs| ==>
            t.dapr[i] == DaprTrigger(
              Some(DaprRef(s.inputs[i].component, KindNamed(s.bindings, s.pubsub, s.inputs[i].component),
                           s.inputs[i].topic)),
              s.inputs[i].name))
    && (s.runtime.Other? ==> t.http.None? && t.dapr == [])
  }

  /** The most specific bound that is set counts, a job's before its object's; there is no lower bound for a job. */
  predicate RightScale(s: SpokeScale, triggers: seq<SpokeTrigger>, h: HubScale, workloadType: string) {
    && h.knative == s.knative
    && (s.keda.None? ==> h.max == s.max && h.min == s.min && h.keda.None? && workloadType == "")
    && (s.keda.Some? ==>
          && h.keda.Some?
          && var o, j, k := s.keda.value.scaledObject, s.keda.value.scaledJob, h.keda.value;
            && h.max == (if j.Some? && j.value.max.Some? then j.value.max
                         else if o.Some? && o.value.max.Some? then o.value.max else s.max)
            && h.min == (if o.Some? && o.value.min.Some? then o.value.min else s.min)
            && k.http.None? && (k.scaledObject.Some? <==> o.Some?) && (k.scaledJob.Some? <==> j.Some?)
            && (o.Some? ==>
                  k.scaledObject == Some(HubScaledObject(o.value.polling, o.value.cooldown, o.value.advanced, None)))
            && (j.Some? ==>
                  o.Some? && k.scaledJob == Some(HubScaledJob(
                    j.value.restart, o.value.polling, j.value.successful, j.value.failed, j.value.strategy)))
            && |k.triggers| == |triggers| && (forall i :: 0 <= i < |triggers| ==> k.triggers[i] == triggers[i].scale)
            && workloadType == (
                 if j.Some? then "Job" else if o.None? then ""
                 else if o.value.workloadType == "" then "Deployment" else o.value.workloadType))
  }

  /** The order goes into both lists, into the second one backwards; a list that is given replaces its own and leaves
      the other. */
  predicate RightHooks(p: Plugins, h: Hooks) {
    && h.policy == Override
    && (p.pre.Some? ==> h.pre == p.pre.value)
    && (p.post.Some? ==> h.post == p.post.value)
    && (p.pre.None? && p.order.Some? ==> h.pre == p.order.value)
    && (p.post.None? && p.order.Some? ==>
          && |h.post| == |p.order.value|
          && forall i :: 0 <= i < |h.post| ==> h.post[i] == p.order.value[|p.order.value| - 1 - i])
    && (p.pre.None? && p.order.None? ==> h.pre == [])
    && (p.post.None? && p.order.None? ==> h.post == [])
  }

  /** One output for every output of a known component, in order. */
  predicate RightOutputs(bindings: Components, pubsub: Components, known: seq<DaprIO>, outputs: seq<HubOutput>) {
    && |outputs| == |known|
    && forall i :: 0 <= i < |known| ==>
      outputs[i] == HubOutput(Some(DaprOutput(
        Some(DaprRef(known[i].component, KindNamed(bindings, pubsub, known[i].component), known[i].topic)),
        known[i].params, known[i].operation, known[i].name)))
  }

  lemma {:induction false} OutputsAreRight(bindings: Components, pubsub: Components, outputs: seq<DaprIO>)
    ensures RightOutputs(bindings, pubsub, KnownOutputs(bindings, pubsub, outputs), OutputsTo(bindings, pubsub, outputs))
    ensures forall o :: o in outputs && IsKnown(bindings, pubsub, o.component) ==>
      o in KnownOutputs(bindings, pubsub, outputs)
    ensures forall o :: o in KnownOutputs(bindings, pubsub, outputs) ==>
      o in outputs && IsKnown(bindings, pubsub, o.component)
  {
    if outputs != [] {
      OutputsAreRight(bindings, pubsub, outputs[..|outputs| - 1]);
      ComponentsAreFound(bindings, pubsub, outputs[|outputs| - 1].component);
    }
  }

  lemma Regrouped(a: seq<DaprIO>, b: seq<DaprIO>, c: seq<DaprIO>)
    ensures a + b + c == a + (b + c)
  {
  }

  lemma KnownAlone(bindings: Components, pubsub: Components, o: DaprIO)
    ensures KnownOutputs(bindings, pubsub, [o]) == if IsKnown(bindings, pubsub, o.component) then [o] else []
  {
    ComponentsAreFound(bindings, pubsub, o.component);
    KnownOneMore(bindings, pubsub, [], o);
    assert [] + [o] == [o];
  }

  lemma KnownOneMore(bindings: Components, pubsub: Components, outputs: seq<DaprIO>, o: DaprIO)
    ensures KnownOutputs(bindings, pubsub, outputs + [o])
      == KnownOutputs(bindings, pubsub, outputs) + if Known(bindings, pubsub, o) then [o] else []
  {
    var more := outputs + [o];
    assert more[..|more| - 1] == outputs && more[|more| - 1] == o;
  }

  /** Which outputs are known is decided one by one, and their order stays: what is known of a list put together is what
      is known of its parts. */
  lemma {:induction false} KnownInOrder(bindings: Components, pubsub: Components, a: seq<DaprIO>, b: seq<DaprIO>)
    ensures KnownOutputs(bindings, pubsub, a + b)
      == KnownOutputs(bindings, pubsub, a) + KnownOutputs(bindings, pubsub, b)
    decreases |b|
  {
    if b == [] {
      assert a + b == a;
    } else {
      var init, o := b[..|b| - 1], b[|b| - 1];
      KnownInOrder(bindings, pubsub, a, init);
      KnownOneMore(bindings, pubsub, a + init, o);
      KnownOneMore(bindings, pubsub, init, o);
      Regrouped(a, init, [o]);
      Regrouped(KnownOutputs(bindings, pubsub, a), KnownOutputs(bindings, pubsub, init),
                if Known(bindings, pubsub, o) then [o] else []);
      assert b == init + [o];
    }
  }

  lemma TriggersAreRight(x: Spoke, s: SpokeServing)
    ensures RightTriggers(x, s, TriggersTo(x, s))
  {
    forall i | 0 <= i < |s.inputs|
      ensures KindOf(GetDaprComponent(s.bindings, s.pubsub, s.inputs[i].component))
        == KindNamed(s.bindings, s.pubsub, s.inputs[i].component)
    {
      ComponentsAreFound(s.bindings, s.pubsub, s.inputs[i].component);
    }
  }

  lemma ScaleIsRight(s: SpokeScale, triggers: seq<SpokeTrigger>)
    requires !ScalePanics(Some(s))
    ensures var (hub, workloadType) := ScaleTo(Some(s), triggers);
      hub.Some? && RightScale(s, triggers, hub.value, workloadType)
  {
  }

  /** Main result on the way to the hub: it panics exactly for a scaled job without a scaled object, fails exactly if an
      annotation that is there does not parse, and otherwise gives every field what the spoke says. */
  lemma WhatTheHubGets(c: Codec, x: Spoke)
    requires x.serving.Some?
    ensures var r, s := To(c, x), x.serving.value;
      var plugins := if PLUGINS in x.annotations then x.annotations[PLUGINS] else "";
      var tracing := if TRACING in x.annotations then x.annotations[TRACING] else "";
      && (r.Panic? <==> (
            && s.scale.Some? && s.scale.value.keda.Some?
            && s.scale.value.keda.value.scaledJob.Some? && s.scale.value.keda.value.scaledObject.None?))
      && (r.ParseError? <==> (
            && !r.Panic?
            && ((plugins != "" && c.parsePlugins(plugins).None?) || (tracing != "" && c.parseTracing(tracing).None?))))
      && (r.Done? ==>
            && r.value.annotations == x.annotations && r.value.serving.Some?
            && var y := r.value.serving.value;
              && y.common == s.common && y.bindings == s.bindings && y.pubsub == s.pubsub
              && y.triggers.Some? && RightTriggers(x, s, y.triggers.value)
              && (y.scale.Some? <==> s.scale.Some?) && (s.scale.None? ==> y.workloadType == "")
              && (s.scale.Some? ==> RightScale(s.scale.value, s.triggers, y.scale.value, y.workloadType))
              && RightOutputs(s.bindings, s.pubsub, KnownOutputs(s.bindings, s.pubsub, s.outputs), y.outputs)
              && y.states.Keys == s.states.Keys && (forall n :: n in s.states ==> y.states[n] == Some(s.states[n]))
              && (y.hooks.Some? <==> plugins != "")
              && (plugins != "" ==> RightHooks(c.parsePlugins(plugins).value, y.hooks.value))
              && y.tracing == (if tracing == "" then None else c.parseTracing(tracing)))
  {
    var s := x.serving.value;
    TriggersAreRight(x, s);
    OutputsAreRight(s.bindings, s.pubsub, s.outputs);
    if s.scale.Some? && !ScalePanics(s.scale) {
      ScaleIsRight(s.scale.value, s.triggers);
    }
  }

  // ---------- What becomes of every field on the way to the spoke ----------

  predicate RightInputs(t: Option<HubTriggers>, z: Spoke, w: SpokeServing) {
    if t.None? || (t.value.http.None? && t.value.dapr == []) then
      w.runtime == Other("") && z.port.None? && z.route.None? && w.inputs == []
    else if t.value.http.Some? then
      w.runtime == Knative && z.port == t.value.http.value.port && z.route == t.value.http.value.route && w.inputs == []
    else
      && w.runtime == Async && z.port.None? && z.route.None? && |w.inputs| == |t.value.dapr|
      && forall i :: 0 <= i < |w.inputs| ==>
        && t.value.dapr[i].ref.Some?
        && var r := t.value.dapr[i].ref.value;
          w.inputs[i] == DaprIO(t.value.dapr[i].inputName, r.name, r.topic, map[], "")
  }

  predicate RightScaleBack(h: HubScale, workloadType: string, s: SpokeScale, triggers: seq<SpokeTrigger>) {
    && s.max == h.max && s.min == h.min && s.knative == h.knative && (s.keda.Some? <==> h.keda.Some?)
    && (h.keda.None? ==> triggers == [])
    && (h.keda.Some? ==>
          && var k, b := h.keda.value, s.keda.value;
            && (b.scaledObject.Some? <==> k.scaledObject.Some?) && (b.scaledJob.Some? <==> k.scaledJob.Some?)
            && (k.scaledObject.Some? ==>
                  var o := k.scaledObject.value;
                  b.scaledObject == Some(SpokeScaledObject(
                    workloadType, o.polling, o.cooldown, h.min, h.max, o.advanced)))
            && (k.scaledJob.Some? ==>
                  var j := k.scaledJob.value;
                  b.scaledJob == Some(SpokeScaledJob(
                    j.restart, j.polling, j.successful, j.failed, h.max, j.strategy)))
            && |triggers| == |k.triggers|
            && forall i :: 0 <= i < |triggers| ==> triggers[i] == SpokeTrigger(k.triggers[i], None))
  }

  /** Main result on the way to the spoke: it panics exactly if something is nil that is looked into, and otherwise
      gives every field what the hub says. */
  lemma WhatTheSpokeGets(c: Codec, y: Hub)
    requires y.serving.Some?
    ensures var r, s := From(c, y), y.serving.value;
      && !r.ParseError?
      && (r.Panic? <==>
            || (s.triggers.Some? && s.triggers.value.http.None?
                && exists i :: 0 <= i < |s.triggers.value.dapr| && s.triggers.value.dapr[i].ref.None?)
            || (exists i :: 0 <= i < |s.outputs| && (s.outputs[i].dapr.None? || s.outputs[i].dapr.value.ref.None?))
            || (exists n :: n in s.states && s.states[n].None?))
      && (r.Done? ==>
            && r.value.serving.Some?
            && var z, w := r.value, r.value.serving.value;
              && w.common == s.common && w.bindings == s.bindings && w.pubsub == s.pubsub
              && RightInputs(s.triggers, z, w)
              && (w.scale.Some? <==> s.scale.Some?) && (s.scale.None? ==> w.triggers == [])
              && (s.scale.Some? ==> RightScaleBack(s.scale.value, s.workloadType, w.scale.value, w.triggers))
              && |w.outputs| == |s.outputs|
              && (forall i :: 0 <= i < |w.outputs| ==>
                    var d := s.outputs[i].dapr.value;
                    w.outputs[i] == DaprIO(d.outputName, d.ref.value.name, d.ref.value.topic, d.metadata, d.operation))
              && w.states.Keys == s.states.Keys
              && (forall n :: n in w.states ==> s.states[n] == Some(w.states[n]))
              && (s.hooks.Some? ==>
                    PLUGINS in z.annotations && z.annotations[PLUGINS]
                      == c.printPlugins(Plugins(None, Some(s.hooks.value.pre), Some(s.hooks.value.post))))
              && (s.tracing.Some? ==>
                    TRACING in z.annotations && z.annotations[TRACING] == c.printTracing(s.tracing.value))
              && (forall k :: (k == PLUGINS && s.hooks.Some?) || (k == TRACING && s.tracing.Some?)
                    || ((k in z.annotations <==> k in y.annotations)
                        && (k in y.annotations ==> z.annotations[k] == y.annotations[k]))))
  {
    assert |PLUGINS| != |TRACING|;
    assert forall i :: 0 <= i < |y.serving.value.outputs| ==>
      (OutputPanics(y.serving.value.outputs[i]) <==>
        y.serving.value.outputs[i].dapr.None? || y.serving.value.outputs[i].dapr.value.ref.None?);
  }

  // ---------- The conversions as they are carried out ----------

  method ConvertInputs(bindings: Components, pubsub: Components, inputs: seq<DaprIO>) returns (dapr: seq<DaprTrigger>)
    ensures dapr == DaprTriggersTo(bindings, pubsub, inputs)
  {
    dapr := [];
    for i := 0 to |inputs|
      invariant |dapr| == i
      invariant forall j :: 0 <= j < i ==> dapr[j] == TriggerTo(bindings, pubsub, inputs[j])
    {
      var item := inputs[i];
      var component := GetDaprComponent(bindings, pubsub, item.component);
      var trigger := DaprTrigger(Some(DaprRef(item.component, "", item.topic)), item.name);
      if component.Some? {
        trigger := trigger.(ref := Some(trigger.ref.value.(kind := component.value.kind)));
      }
      dapr := dapr + [trigger];
    }
  }

  method ConvertOutputs(bindings: Components, pubsub: Components, items: seq<DaprIO>) returns (outputs: seq<HubOutput>)
    ensures outputs == OutputsTo(bindings, pubsub, items)
  {
    outputs := [];
    for i := 0 to |items|
      invariant outputs == OutputsTo(bindings, pubsub, items[..i])
    {
      assert items[..i + 1][..i] == items[..i];
      var component := GetDaprComponent(bindings, pubsub, items[i].component);
      if component.None? {
        continue;
      }
      outputs := outputs + [OutputTo(component.value, items[i])];
    }
    assert items[..|items|] == items;
  }

  method ConvertStates(items: Components) returns (states: map<string, Option<Option<ComponentSpec>>>)
    ensures states == StatesTo(items)
  {
    states := map[];
    var rest := items.Keys;
    while rest != {}
      invariant rest <= items.Keys && states == StatesTo(items - rest)
      decreases rest
    {
      var k :| k in rest;
      states, rest := states[k := Some(items[k])], rest - {k};
    }
    assert items - {} == items;
  }

  method Reverse(originSlice: seq<string>) returns (reverseSlice: seq<string>)
    ensures reverseSlice == Reversed(originSlice)
  {
    reverseSlice := [];
    for i := |originSlice| downto 0
      invariant |reverseSlice| == |originSlice| - i
      invariant forall j :: 0 <= j < |reverseSlice| ==> reverseSlice[j] == originSlice[|originSlice| - 1 - j]
    {
      reverseSlice := reverseSlice + [originSlice[i]];
    }
  }

  method ConvertTriggers(triggers: seq<SpokeTrigger>) returns (scalers: seq<string>)
    ensures scalers == ScaleTriggersTo(triggers)
  {
    scalers := [];
    for i := 0 to |triggers|
      invariant |scalers| == i && forall j :: 0 <= j < i ==> scalers[j] == triggers[j].scale
    {
      scalers := scalers + [triggers[i].scale];
    }
  }

  /** Later assignments to the replica bounds and the workload type override earlier ones. */
  method ConvertScale(s: SpokeScale, triggers: seq<SpokeTrigger>)
      returns (ok: bool, scale: HubScale, workloadType: string)
    ensures ok <==> !ScalePanics(Some(s))
    ensures ok ==> (Some(scale), workloadType) == ScaleTo(Some(s), triggers)
  {
    ok, scale, workloadType := true, HubScale(s.max, s.min, None, s.knative), "";
    if s.keda.None? {
      return;
    }
    var keda := HubKeda(None, None, None, []);
    if s.keda.value.scaledObject.Some? {
      var o := s.keda.value.scaledObject.value;
      keda := keda.(scaledObject := Some(HubScaledObject(o.polling, o.cooldown, o.advanced, None)));
      if o.max.Some? {
        scale := scale.(max := o.max);
      }
      if o.min.Some? {
        scale := scale.(min := o.min);
      }
      workloadType := "Deployment";
      if o.workloadType != "" {
        workloadType := o.workloadType;
      }
    }
    if s.keda.value.scaledJob.Some? {
      var j := s.keda.value.scaledJob.value;
      if s.keda.value.scaledObject.None? {
        ok := false;
        return;
      }
      var polling := s.keda.value.scaledObject.value.polling;
      keda := keda.(scaledJob := Some(HubScaledJob(j.restart, polling, j.successful, j.failed, j.strategy)));
      if j.max.Some? {
        scale := scale.(max := j.max);
      }
      workloadType := "Job";
    }
    var scalers := ConvertTriggers(triggers);
    scale := scale.(keda := Some(keda.(triggers := scalers)));
  }

  method ConvertPlugins(p: Plugins) returns (hooks: Hooks)
    ensures hooks == HooksTo(p)
  {
    hooks := Hooks([], [], Override);
    if p.order.Some? {
      var post := Reverse(p.order.value);
      hooks := hooks.(pre := p.order.value, post := post);
    }
    if p.pre.Some? {
      hooks := hooks.(pre := p.pre.value);
    }
    if p.post.Some? {
      hooks := hooks.(post := p.post.value);
    }
  }

  method ConvertAnnotations(c: Codec, annotations: map<string, string>)
      returns (ok: bool, hooks: Option<Hooks>, tracing: Option<Tracing.Config>)
    ensures ok <==> !TracingFails(c, annotations) && !PluginsFail(c, annotations)
    ensures ok ==> hooks == PluginsTo(c, annotations) && tracing == TracingTo(c, annotations)
  {
    ok, hooks, tracing := false, None, None;
    var tracingRaw := Text(annotations, TRACING);
    if tracingRaw != "" {
      tracing := c.parseTracing(tracingRaw);
      if tracing.None? {
        return;
      }
    }
    var pluginsRaw := Text(annotations, PLUGINS);
    if pluginsRaw != "" {
      var plugins := c.parsePlugins(pluginsRaw);
      if plugins.None? {
        return;
      }
      var h := ConvertPlugins(plugins.value);
      hooks := Some(h);
    }
    ok := true;
  }

  method ConvertServingTo(c: Codec, x: Spoke) returns (r: Outcome<Hub>)
    ensures r == To(c, x)
  {
    if x.serving.None? {
      return Done(Hub(x.annotations, None));
    }
    var s := x.serving.value;
    var triggers := HubTriggers(None, [], []);
    if s.runtime == Knative {
      triggers := triggers.(http := Some(HttpTrigger(x.port, ConvertRoute(x.route), None)));
    } else if s.runtime == Async {
      var dapr := ConvertInputs(s.bindings, s.pubsub, s.inputs);
      triggers := triggers.(dapr := dapr);
    }
    var scale: Option<HubScale>, workloadType := None, "";
    if s.scale.Some? {
      var ok, converted;
      ok, converted, workloadType := ConvertScale(s.scale.value, s.triggers);
      if !ok {
        return Panic;
      }
      scale := Some(converted);
    }
    var outputs := ConvertOutputs(s.bindings, s.pubsub, s.outputs);
    var states := ConvertStates(s.states);
    var ok, hooks, tracing := ConvertAnnotations(c, x.annotations);
    if !ok {
      return ParseError;
    }
    r := Done(Hub(x.annotations, Some(HubServing(s.common, s.bindings, s.pubsub, Some(triggers), scale, workloadType,
                                                 outputs, states, hooks, tracing))));
  }

  method ConvertInputsFrom(triggers: seq<DaprTrigger>) returns (ok: bool, inputs: seq<DaprIO>)
    ensures ok <==> forall i :: 0 <= i < |triggers| ==> triggers[i].ref.Some?
    ensures ok ==> inputs == InputsFrom(triggers)
  {
    inputs := [];
    for i := 0 to |triggers|
      invariant |inputs| == i
      invariant forall j :: 0 <= j < i ==> triggers[j].ref.Some? && inputs[j] == InputFrom(triggers[j])
    {
      if triggers[i].ref.None? {
        return false, [];
      }
      inputs := inputs + [InputFrom(triggers[i])];
    }
    ok := true;
  }

  method ConvertOutputsFrom(items: seq<HubOutput>) returns (ok: bool, outputs: seq<DaprIO>)
    ensures ok <==> !OutputsPanic(items)
    ensures ok ==> outputs == OutputsFrom(items)
  {
    outputs := [];
    for i := 0 to |items|
      invariant |outputs| == i
      invariant forall j :: 0 <= j < i ==> !OutputPanics(items[j]) && outputs[j] == OutputFrom(items[j])
    {
      if OutputPanics(items[i]) {
        return false, [];
      }
      outputs := outputs + [OutputFrom(items[i])];
    }
    ok := true;
  }

  method ConvertStatesFrom(items: map<string, Option<Option<ComponentSpec>>>) returns (ok: bool, states: Components)
    ensures ok <==> !StatesPanic(items)
    ensures ok ==> states == StatesFrom(items)
  {
    states := map[];
    var rest := items.Keys;
    while rest != {}
      invariant rest <= items.Keys && states.Keys == items.Keys - rest
      invariant forall k :: k in states ==> items[k] == Some(states[k])
      decreases rest
    {
      var k :| k in rest;
      if items[k].None? {
        return false, map[];
      }
      states, rest := states[k := items[k].value], rest - {k};
    }
    ok := true;
  }

  method ConvertTriggersFrom(scalers: seq<string>) returns (triggers: seq<SpokeTrigger>)
    ensures triggers == ScaleTriggersFrom(scalers)
  {
    triggers := [];
    for i := 0 to |scalers|
      invariant |triggers| == i && forall j :: 0 <= j < i ==> triggers[j] == SpokeTrigger(scalers[j], None)
    {
      triggers := triggers + [SpokeTrigger(scalers[i], None)];
    }
  }

  method ConvertServingFrom(c: Codec, y: Hub) returns (r: Outcome<Spoke>)
    ensures r == From(c, y)
  {
    if y.serving.None? {
      return Done(Spoke(y.annotations, None, None, None));
    }
    var s := y.serving.value;
    var z := Spoke(y.annotations, None, None, None);
    var w := SpokeServing(s.common, Other(""), s.bindings, s.pubsub, [], [], None, [], map[]);
    if s.triggers.Some? {
      if s.triggers.value.http.Some? {
        var http := s.triggers.value.http.value;
        w := w.(runtime := Knative);
        z := z.(port := http.port, route := ConvertRoute(http.route));
      } else if s.triggers.value.dapr != [] {
        var ok, inputs := ConvertInputsFrom(s.triggers.value.dapr);
        if !ok {
          return Panic;
        }
        w := w.(runtime := Async, inputs := inputs);
      }
    }
    if s.scale.Some? {
      var scale := s.scale.value;
      var keda: Option<SpokeKeda> := None;
      if scale.keda.Some? {
        keda := Some(KedaFrom(scale, scale.keda.value, s.workloadType));
        var triggers := ConvertTriggersFrom(scale.keda.value.triggers);
        w := w.(triggers := triggers);
      }
      w := w.(scale := Some(SpokeScale(scale.max, scale.min, keda, scale.knative)));
    }
    var ok, outputs := ConvertOutputsFrom(s.outputs);
    if !ok {
      return Panic;
    }
    var ok', states := ConvertStatesFrom(s.states);
    if !ok' {
      return Panic;
    }
    w := w.(outputs := outputs, states := states);
    if s.hooks.Some? {
      z := z.(annotations := z.annotations[PLUGINS := c.printPlugins(PluginsFrom(s.hooks.value))]);
    }
    if s.tracing.Some? {
      z := z.(annotations := z.annotations[TRACING := c.printTracing(s.tracing.value)]);
    }
    r := Done(z.(serving := Some(w)));
  }
}

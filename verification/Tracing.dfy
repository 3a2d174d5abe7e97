/** Completing a serving's tracing configuration, in place, from the global one. It happens several times in one
    attempt to run a serving, each time with a freshly parsed global configuration. */
module Tracing {
  import opened Api

  type Tags = map<string, string>

  datatype ExporterValue = ExporterValue(
    name: string, protocol: string, endpoint: string, headers: string, compression: string, timeout: string)

  datatype ProviderValue = ProviderValue(name: string, oapServer: string, exporter: Option<ExporterValue>)

  /** A tracing configuration as a value; a nil map is an empty one. */
  datatype Config = Config(enabled: bool, provider: Option<ProviderValue>, tags: Tags, baggage: Tags)

  // ---------- What merging means ----------

  /** An empty text takes the global one. */
  function Text(mine: string, global: string): string {
    if mine == "" then global else mine
  }

  function MergeExporter(l: ExporterValue, g: ExporterValue): ExporterValue {
    ExporterValue(Text(l.name, g.name), Text(l.protocol, g.protocol), Text(l.endpoint, g.endpoint),
                  Text(l.headers, g.headers), Text(l.compression, g.compression), Text(l.timeout, g.timeout))
  }

  function MergeExporters(l: Option<ExporterValue>, g: Option<ExporterValue>): Option<ExporterValue> {
    if l.None? then g else if g.None? then l else Some(MergeExporter(l.value, g.value))
  }

  function MergeProviders(l: Option<ProviderValue>, g: Option<ProviderValue>): Option<ProviderValue> {
    if l.None? then g
    else if g.None? then l
    else Some(ProviderValue(Text(l.value.name, g.value.name), Text(l.value.oapServer, g.value.oapServer),
                            MergeExporters(l.value.exporter, g.value.exporter)))
  }

  function MergeConfig(l: Config, g: Config): Config {
    Config(l.enabled, MergeProviders(l.provider, g.provider), g.tags + l.tags, g.baggage + l.baggage)
  }

  /** The configuration in effect: none if the serving switches tracing off. */
  function Effective(l: Option<Config>, g: Option<Config>): Option<Config> {
    if l.Some? && !l.value.enabled then None
    else if g.None? then l
    else if l.None? then g
    else Some(MergeConfig(l.value, g.value))
  }

  /** What is left behind in the serving. */
  function LeftBehind(l: Option<Config>, g: Option<Config>): Option<Config> {
    if l.Some? && l.value.enabled && g.Some? then Some(MergeConfig(l.value, g.value)) else l
  }

  /** What `n` calls leave behind. */
  function AfterCalls(l: Option<Config>, g: Option<Config>, n: nat): Option<Config> {
    if n == 0 then l else LeftBehind(AfterCalls(l, g, n - 1), g)
  }

  // ---------- What that amounts to, field by field ----------

  /** A text set locally stays, an empty one takes the global value. */
  predicate Takes(result: string, mine: string, global: string) {
    (mine != "" ==> result == mine) && (mine == "" ==> result == global)
  }

  /** All entries of both, and where both have one the local one. */
  predicate TakesEntries(result: Tags, mine: Tags, global: Tags) {
    && result.Keys == mine.Keys + global.Keys
    && (forall k :: k in mine ==> result[k] == mine[k])
    && (forall k :: k in global && k !in mine ==> result[k] == global[k])
  }

  predicate TakesExporter(r: Option<ExporterValue>, l: Option<ExporterValue>, g: Option<ExporterValue>) {
    && (l.None? ==> r == g)
    && (g.None? ==> r == l)
    && (l.Some? && g.Some? ==>
          && r.Some?
          && Takes(r.value.name, l.value.name, g.value.name)
          && Takes(r.value.protocol, l.value.protocol, g.value.protocol)
          && Takes(r.value.endpoint, l.value.endpoint, g.value.endpoint)
          && Takes(r.value.headers, l.value.headers, g.value.headers)
          && Takes(r.value.compression, l.value.compression, g.value.compression)
          && Takes(r.value.timeout, l.value.timeout, g.value.timeout))
  }

  predicate TakesProvider(r: Option<ProviderValue>, l: Option<ProviderValue>, g: Option<ProviderValue>) {
    && (l.None? ==> r == g)
    && (g.None? ==> r == l)
    && (l.Some? && g.Some? ==>
          && r.Some?
          && Takes(r.value.name, l.value.name, g.value.name)
          && Takes(r.value.oapServer, l.value.oapServer, g.value.oapServer)
          && TakesExporter(r.value.exporter, l.value.exporter, g.value.exporter))
  }

  /** The local configuration completed from the global one. */
  predicate CompletedFrom(r: Config, l: Config, g: Config) {
    && r.enabled == l.enabled
    && TakesProvider(r.provider, l.provider, g.provider)
    && TakesEntries(r.tags, l.tags, g.tags) && TakesEntries(r.baggage, l.baggage, g.baggage)
  }

  /** Main result on precedence: what is set locally wins, field by field and entry by entry. */
  lemma LocalWins(l: Config, g: Config)
    ensures CompletedFrom(MergeConfig(l, g), l, g)
  {
  }

  /** Merging is associative: completing from a global that was itself completed is completing twice. */
  lemma MergeIsAssociative(a: Config, b: Config, c: Config)
    ensures MergeConfig(MergeConfig(a, b), c) == MergeConfig(a, MergeConfig(b, c))
  {
    PlusIsAssociative(c.tags, b.tags, a.tags);
    PlusIsAssociative(c.baggage, b.baggage, a.baggage);
  }

  lemma PlusIsAssociative(a: Tags, b: Tags, c: Tags)
    ensures a + (b + c) == (a + b) + c
  {
  }

  const NO_EXPORTER := ExporterValue("", "", "", "", "", "")
  const NOTHING := Config(true, None, map[], map[])

  /** Nothing set locally yields the global value, nothing set globally the local one, field by field. */
  lemma EmptyIsNeutral(c: Config, e: ExporterValue, n: string, o: string)
    ensures MergeConfig(c, NOTHING) == c
    ensures c.enabled ==> MergeConfig(NOTHING, c) == c
    ensures MergeExporter(e, NO_EXPORTER) == e == MergeExporter(NO_EXPORTER, e)
    ensures MergeProviders(Some(ProviderValue(n, o, Some(e))), Some(ProviderValue("", "", None)))
      == Some(ProviderValue(n, o, Some(e)))
      == MergeProviders(Some(ProviderValue("", "", None)), Some(ProviderValue(n, o, Some(e))))
  {
    assert map[] + c.tags == c.tags && map[] + c.baggage == c.baggage;
  }

  lemma MergeAbsorbs(l: Config, g: Config)
    ensures MergeConfig(MergeConfig(l, g), g) == MergeConfig(l, g)
  {
    MergeIsAssociative(l, g, g);
    assert g.tags + g.tags == g.tags && g.baggage + g.baggage == g.baggage;
  }

  /** Main result: however often a call is repeated, every one of them finds the same effective configuration,
      and the serving does not change after the first. */
  lemma {:induction false} LaterCallsChangeNothing(l: Option<Config>, g: Option<Config>, n: nat)
    ensures Effective(AfterCalls(l, g, n), g) == Effective(l, g)
    ensures n > 0 ==> AfterCalls(l, g, n) == LeftBehind(l, g)
  {
    if n > 0 {
      LaterCallsChangeNothing(l, g, n - 1);
      if l.Some? && g.Some? {
        MergeAbsorbs(l.value, g.value);
      }
    }
  }

  lemma SecondCallChangesNothing(l: Option<Config>, g: Option<Config>)
    ensures Effective(LeftBehind(l, g), g) == Effective(l, g)
    ensures LeftBehind(LeftBehind(l, g), g) == LeftBehind(l, g)
  {
    assert AfterCalls(l, g, 1) == LeftBehind(AfterCalls(l, g, 0), g) == LeftBehind(l, g);
    LaterCallsChangeNothing(l, g, 1);
    LaterCallsChangeNothing(l, g, 2);
  }

  // ---------- On the heap ----------

  class Exporter {
    var name: string
    var protocol: string
    var endpoint: string
    var headers: string
    var compression: string
    var timeout: string

    constructor (v: ExporterValue)
      ensures ExporterOf(this) == Some(v)
    {
      name, protocol, endpoint := v.name, v.protocol, v.endpoint;
      headers, compression, timeout := v.headers, v.compression, v.timeout;
    }
  }

  class TracingProvider {
    var name: string
    var oapServer: string
    var exporter: Exporter?

    constructor (name: string, oapServer: string, exporter: Exporter?)
      ensures this.name == name && this.oapServer == oapServer && this.exporter == exporter
    {
      this.name, this.oapServer, this.exporter := name, oapServer, exporter;
    }
  }

  class TracingConfig {
    var enabled: bool
    var provider: TracingProvider?
    var tags: Tags
    var baggage: Tags

    constructor (enabled: bool, provider: TracingProvider?, tags: Tags, baggage: Tags)
      ensures this.enabled == enabled && this.provider == provider && this.tags == tags && this.baggage == baggage
    {
      this.enabled, this.provider, this.tags, this.baggage := enabled, provider, tags, baggage;
    }
  }

  class Serving {
    var tracing: TracingConfig?

    constructor (tracing: TracingConfig?)
      ensures this.tracing == tracing
    {
      this.tracing := tracing;
    }
  }

  function ExporterOf(e: Exporter?): Option<ExporterValue>
    reads e
  {
    if e == null then None
    else Some(ExporterValue(e.name, e.protocol, e.endpoint, e.headers, e.compression, e.timeout))
  }

  ghost function ProviderFootprint(p: TracingProvider?): set<object>
    reads p
  {
    if p == null then {} else if p.exporter == null then {p} else {p, p.exporter}
  }

  function ProviderOf(p: TracingProvider?): Option<ProviderValue>
    reads p, if p != null then {p.exporter} else {}
  {
    if p == null then None else Some(ProviderValue(p.name, p.oapServer, ExporterOf(p.exporter)))
  }

  ghost function Footprint(t: TracingConfig?): set<object>
    reads t, if t != null then {t.provider} else {}
  {
    if t == null then {} else {t} + ProviderFootprint(t.provider)
  }

  function ConfigOf(t: TracingConfig?): Option<Config>
    reads t, if t != null then {t.provider} + (if t.provider != null then {t.provider.exporter} else {}) else {}
  {
    if t == null then None else Some(Config(t.enabled, ProviderOf(t.provider), t.tags, t.baggage))
  }

  /** The text of the global configuration: the current key has precedence over the older one. */
  function GlobalText(cm: map<string, string>): string {
    if "tracing" in cm then cm["tracing"] else if "plugins.tracing" in cm then cm["plugins.tracing"] else ""
  }

  /** The global configuration, if there is one and `parse` understands it. */
  function GlobalConfig(cm: map<string, string>, parse: string -> Option<Config>): Option<Config> {
    if GlobalText(cm) == "" then None else parse(GlobalText(cm))
  }

  method GetGlobalTracingConfig(cm: map<string, string>, parse: string -> Option<Config>)
      returns (t: TracingConfig?)
    ensures ConfigOf(t) == GlobalConfig(cm, parse)
    ensures "tracing" in cm ==> ConfigOf(t) == if cm["tracing"] == "" then None else parse(cm["tracing"])
    ensures "tracing" !in cm && "plugins.tracing" in cm ==>
      ConfigOf(t) == if cm["plugins.tracing"] == "" then None else parse(cm["plugins.tracing"])
    ensures "tracing" !in cm && "plugins.tracing" !in cm ==> t == null
    ensures fresh(Footprint(t))
  {
    var tracingRaw := "";
    if "plugins.tracing" in cm {
      tracingRaw := cm["plugins.tracing"];
    }
    if "tracing" in cm {
      tracingRaw := cm["tracing"];
    }
    if tracingRaw == "" {
      return null;
    }
    var parsed := parse(tracingRaw);
    if parsed.None? {
      return null;
    }
    t := Build(parsed.value);
  }

  method Build(c: Config) returns (t: TracingConfig)
    ensures ConfigOf(t) == Some(c) && fresh(Footprint(t))
  {
    var provider: TracingProvider? := null;
    if c.provider.Some? {
      var exporter: Exporter? := null;
      if c.provider.value.exporter.Some? {
        exporter := new Exporter(c.provider.value.exporter.value);
      }
      provider := new TracingProvider(c.provider.value.name, c.provider.value.oapServer, exporter);
    }
    t := new TracingConfig(c.enabled, provider, c.tags, c.baggage);
  }

  /** A new map: first the entries of `m2`, then those of `m1` over them. */
  method MergerMap(m1: Tags, m2: Tags) returns (res: Tags)
    ensures res == m2 + m1
  {
    res := map[];
    res := Enter(res, m2);
    res := Enter(res, m1);
  }

  method Enter(m: Tags, entries: Tags) returns (res: Tags)
    ensures res == m + entries
  {
    res := m;
    var rest := entries.Keys;
    while rest != {}
      invariant rest <= entries.Keys
      invariant res == m + (entries - rest)
      decreases rest
    {
      var k :| k in rest;
      assert entries - (rest - {k}) == (entries - rest)[k := entries[k]];
      res, rest := res[k := entries[k]], rest - {k};
    }
    assert entries - {} == entries;
  }

  method FillExporter(e: Exporter, g: Exporter)
    requires e != g
    modifies e
    ensures ExporterOf(e) == Some(MergeExporter(old(ExporterOf(e)).value, ExporterOf(g).value))
  {
    if e.name == "" { e.name := g.name; }
    if e.protocol == "" { e.protocol := g.protocol; }
    if e.endpoint == "" { e.endpoint := g.endpoint; }
    if e.headers == "" { e.headers := g.headers; }
    if e.compression == "" { e.compression := g.compression; }
    if e.timeout == "" { e.timeout := g.timeout; }
  }

  method FillProvider(p: TracingProvider, g: TracingProvider)
    requires ProviderFootprint(p) !! ProviderFootprint(g)
    modifies ProviderFootprint(p)
    ensures ProviderOf(p) == MergeProviders(old(ProviderOf(p)), old(ProviderOf(g)))
    ensures ProviderFootprint(p) <= old(ProviderFootprint(p)) + old(ProviderFootprint(g))
  {
    if p.name == "" { p.name := g.name; }
    if p.oapServer == "" { p.oapServer := g.oapServer; }
    if p.exporter == null {
      p.exporter := g.exporter;
    } else if g.exporter != null {
      FillExporter(p.exporter, g.exporter);
    }
  }

  method FillProviders(t: TracingConfig, g: TracingConfig)
    requires Footprint(t) !! Footprint(g)
    modifies Footprint(t)
    ensures ProviderOf(t.provider) == MergeProviders(old(ProviderOf(t.provider)), old(ProviderOf(g.provider)))
    ensures Footprint(t) <= old(Footprint(t)) + old(Footprint(g))
    ensures t.enabled == old(t.enabled) && t.tags == old(t.tags) && t.baggage == old(t.baggage)
  {
    if t.provider == null {
      t.provider := g.provider;
    } else if g.provider != null {
      FillProvider(t.provider, g.provider);
    }
  }

  method MergeInto(t: TracingConfig, g: TracingConfig)
    requires Footprint(t) !! Footprint(g)
    modifies Footprint(t)
    ensures ConfigOf(t) == Some(MergeConfig(old(ConfigOf(t)).value, old(ConfigOf(g)).value))
    ensures Footprint(t) <= old(Footprint(t)) + old(Footprint(g))
  {
    FillProviders(t, g);
    FillMaps(t, g);
  }

  method FillMaps(t: TracingConfig, g: TracingConfig)
    modifies t`tags, t`baggage
    ensures t.tags == old(g.tags) + old(t.tags) && t.baggage == old(g.baggage) + old(t.baggage)
  {
    var baggage := MergerMap(t.baggage, g.baggage);
    var tags := MergerMap(t.tags, g.tags);
    t.baggage := baggage;
    t.tags := tags;
  }

  /** Completes the serving's configuration in place and returns the one in effect. */
  method MergerTracingConfig(s: Serving, cm: map<string, string>, parse: string -> Option<Config>)
      returns (effective: TracingConfig?)
    modifies Footprint(s.tracing)
    ensures ConfigOf(effective) == Effective(old(ConfigOf(s.tracing)), GlobalConfig(cm, parse))
    ensures ConfigOf(s.tracing) == LeftBehind(old(ConfigOf(s.tracing)), GlobalConfig(cm, parse))
    ensures
      var l, g := old(ConfigOf(s.tracing)), GlobalConfig(cm, parse);
      && (l.Some? && !l.value.enabled ==> effective == null && ConfigOf(s.tracing) == l)
      && (l.Some? && l.value.enabled && g.None? ==> effective == s.tracing && ConfigOf(s.tracing) == l)
      && (l.Some? && l.value.enabled && g.Some? ==>
            effective == s.tracing && s.tracing != null && CompletedFrom(ConfigOf(s.tracing).value, l.value, g.value))
      && (l.None? ==> s.tracing == null && ConfigOf(effective) == g)
    ensures fresh(Footprint(s.tracing) - old(Footprint(s.tracing)))
    ensures effective == null || effective == s.tracing || s.tracing == null
  {
    var t := s.tracing;
    if t != null && !t.enabled {
      return null;
    }
    var g := GetGlobalTracingConfig(cm, parse);
    if g == null {
      return t;
    }
    if t == null {
      return g;
    }
    LocalWins(ConfigOf(t).value, ConfigOf(g).value);
    MergeInto(t, g);
    effective := t;
  }

  /** Three places of one attempt ask for the configuration, the third only if a proxy is needed: the workload's
      environment, the function context, and the function context of the proxy. */
  method Ask(s: Serving, cm: map<string, string>, parse: string -> Option<Config>, proxy: bool)
      returns (forWorkload: TracingConfig?, forContext: TracingConfig?, forProxy: TracingConfig?)
    modifies Footprint(s.tracing)
    ensures ConfigOf(forWorkload) == ConfigOf(forContext) == Effective(old(ConfigOf(s.tracing)), GlobalConfig(cm, parse))
    ensures proxy ==> ConfigOf(forProxy) == ConfigOf(forContext)
    ensures ConfigOf(s.tracing) == LeftBehind(old(ConfigOf(s.tracing)), GlobalConfig(cm, parse))
  {
    ghost var l, g := ConfigOf(s.tracing), GlobalConfig(cm, parse);
    SecondCallChangesNothing(l, g);
    forWorkload := MergerTracingConfig(s, cm, parse);
    forContext := MergerTracingConfig(s, cm, parse);
    forProxy := null;
    if proxy {
      forProxy := MergerTracingConfig(s, cm, parse);
    }
  }
}

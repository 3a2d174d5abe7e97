/** The names of a serving's Dapr components: written as one comma-joined value of names the API server has
    generated, in whatever order a map was iterated, and resolved back to a component by prefix matching. */
module ComponentNames {
  import opened Api

  const KEY := "dapr.io/component"
  const BINDINGS := "bindings"
  const PUBSUB := "pubsub"
  const STATE := "state"

  // ---------- Splitting and joining ----------

  function Split(s: string, c: char): (parts: seq<string>)
    ensures |parts| >= 1
  {
    if s == "" then [""]
    else
      var rest := Split(s[1..], c);
      if s[0] == c then [""] + rest else [[s[0]] + rest[0]] + rest[1..]
  }

  /** Every item followed by the separator. */
  function Terminated(items: seq<string>, c: char): string {
    if items == [] then "" else Terminated(items[..|items| - 1], c) + items[|items| - 1] + [c]
  }

  function Joined(items: seq<string>, c: char): string {
    if |items| == 0 then ""
    else if |items| == 1 then items[0]
    else items[0] + [c] + Joined(items[1..], c)
  }

  function TrimSuffix(s: string, c: char): string {
    if s != "" && s[|s| - 1] == c then s[..|s| - 1] else s
  }

  lemma Regrouped(a: string, b: string, x: string, y: string)
    ensures a + b + x + y == a + (b + x + y)
  {
  }

  lemma {:induction false} TerminatedFromFront(items: seq<string>, c: char)
    requires items != []
    ensures Terminated(items, c) == items[0] + [c] + Terminated(items[1..], c)
  {
    var init, last := items[..|items| - 1], items[|items| - 1];
    if init != [] {
      TerminatedFromFront(init, c);
      var tail := items[1..];
      assert tail[..|tail| - 1] == init[1..] && tail[|tail| - 1] == last;
      Regrouped(items[0] + [c], Terminated(init[1..], c), last, [c]);
    }
  }

  lemma {:induction false} TerminatedIsJoined(items: seq<string>, c: char)
    requires items != []
    ensures Terminated(items, c) == Joined(items, c) + [c]
  {
    TerminatedFromFront(items, c);
    if |items| > 1 {
      TerminatedIsJoined(items[1..], c);
    }
  }

  lemma {:induction false} SplitAfterItem(item: string, rest: string, c: char)
    requires c !in item
    ensures Split(item + [c] + rest, c) == [item] + Split(rest, c)
  {
    if item == "" {
      assert item + [c] + rest == [c] + rest;
    } else {
      SplitAfterItem(item[1..], rest, c);
      assert (item + [c] + rest)[1..] == item[1..] + [c] + rest;
      assert [item[0]] + item[1..] == item;
    }
  }

  lemma {:induction false} SplitWithoutSeparator(item: string, c: char)
    requires c !in item
    ensures Split(item, c) == [item]
  {
    if item != "" {
      SplitWithoutSeparator(item[1..], c);
      assert [item[0]] + item[1..] == item;
    }
  }

  /** Splitting undoes joining. */
  lemma {:induction false} SplitOfJoined(items: seq<string>, c: char)
    requires items != [] && forall i :: 0 <= i < |items| ==> c !in items[i]
    ensures Split(Joined(items, c), c) == items
  {
    if |items| == 1 {
      SplitWithoutSeparator(items[0], c);
    } else {
      SplitOfJoined(items[1..], c);
      SplitAfterItem(items[0], Joined(items[1..], c), c);
    }
  }

  // ---------- Components and the names generated for them ----------

  /** A binding, pubsub or state component description; only its content, which no name depends on. */
  type Description = Option<string>

  /** `bindings-x`, `pubsub-x` or `state-x`. */
  function Qualified(kind: string, name: string): string {
    kind + "-" + name
  }

  function Keys(kind: string, names: set<string>): set<string> {
    set n | n in names :: Qualified(kind, n)
  }

  function Base(serving: string, key: string): string {
    serving + "-" + key + "-"
  }

  /** The server cuts a base that is too long before it appends its random suffix. */
  function Generated(base: string, suffix: string, limit: nat): string {
    (if |base| > limit then base[..limit] else base) + suffix
  }

  /** What the server generates for every key: `suffix` are its random choices, `limit` the length it allows. */
  datatype NameSource = NameSource(suffix: string -> string, limit: nat)

  function ObjectName(source: NameSource, serving: string, key: string): string {
    Generated(Base(serving, key), source.suffix(key), source.limit)
  }

  predicate PlainSuffix(s: string) {
    '-' !in s && ',' !in s
  }

  // ---------- Resolving ----------

  /** The part of a component type before the first dot; a type without a dot has none. */
  function TypePrefix(componentType: string): string {
    var parts := Split(componentType, '.');
    if |parts| < 2 then "" else parts[0]
  }

  /** The name a reference must begin with to be taken for the component. */
  function Wanted(serving: string, prefix: string, name: string): string {
    Base(serving, Qualified(prefix, name))
  }

  predicate Matches(ref: string, wanted: string) {
    wanted <= ref && '-' !in ref[|wanted|..]
  }

  /** The last reference that matches, or else the component's own name. */
  function RealName(refs: seq<string>, wanted: string, name: string): string {
    if refs == [] then name
    else if Matches(refs[|refs| - 1], wanted) then refs[|refs| - 1]
    else RealName(refs[..|refs| - 1], wanted, name)
  }

  /** The last name that matches counts; if none does, the component's own name. */
  lemma {:induction false} LastMatchCounts(refs: seq<string>, wanted: string, name: string, i: int)
    requires -1 <= i < |refs| && (i >= 0 ==> Matches(refs[i], wanted))
    requires forall j :: i < j < |refs| ==> !Matches(refs[j], wanted)
    ensures RealName(refs, wanted, name) == if i < 0 then name else refs[i]
  {
    if i < |refs| - 1 {
      assert !Matches(refs[|refs| - 1], wanted);
      LastMatchCounts(refs[..|refs| - 1], wanted, name, i);
    }
  }

  /** What stands before the first dot is the prefix. */
  lemma PrefixOfDotted(kind: string, rest: string)
    requires '.' !in kind
    ensures TypePrefix(kind + "." + rest) == kind
  {
    SplitAfterItem(kind, rest, '.');
  }

  lemma {:induction false} FirstDot(s: string) returns (kind: string, rest: string)
    requires '.' in s
    ensures '.' !in kind && s == kind + "." + rest
  {
    if s[0] == '.' {
      kind, rest := "", s[1..];
    } else {
      kind, rest := FirstDot(s[1..]);
      kind := [s[0]] + kind;
    }
  }

  method GetComponentTypePrefix(componentType: string) returns (prefix: string)
    ensures prefix == TypePrefix(componentType)
    ensures '.' !in componentType ==> prefix == ""
    ensures '.' in componentType ==> '.' !in prefix && prefix + "." <= componentType
  {
    var parts := Split(componentType, '.');
    if '.' !in componentType {
      SplitWithoutSeparator(componentType, '.');
    } else {
      ghost var kind, rest := FirstDot(componentType);
      PrefixOfDotted(kind, rest);
      assert kind + "." <= componentType;
    }
    if |parts| < 2 {
      return "";
    }
    prefix := parts[0];
  }

  class ServingComponents {
    const name: string
    const bindings: map<string, Description>
    const pubsub: map<string, Description>
    const states: map<string, Option<Description>>
    /** Status.ResourceRef of the serving. */
    var resourceRef: map<string, string>
    /** The component objects on the source, in order of creation. */
    var objects: seq<string>

    constructor (name: string, bindings: map<string, Description>, pubsub: map<string, Description>,
                 states: map<string, Option<Description>>)
      ensures this.name == name && this.bindings == bindings && this.pubsub == pubsub && this.states == states
      ensures resourceRef == map[] && objects == []
    {
      this.name, this.bindings, this.pubsub, this.states := name, bindings, pubsub, states;
      resourceRef := map[];
      objects := [];
    }

    /** The keys of all components that must be created: a state without a description is somebody else's. */
    function Components(): set<string> {
      Keys(BINDINGS, bindings.Keys) + Keys(PUBSUB, pubsub.Keys)
      + Keys(STATE, set n | n in states && states[n].Some?)
    }

    /** In words: every binding, every pubsub, and every state that has a description, each under its kind. */
    lemma WhichComponents(key: string)
      ensures key in Components() <==>
        || (exists n :: n in bindings && key == "bindings-" + n)
        || (exists n :: n in pubsub && key == "pubsub-" + n)
        || (exists n :: n in states && states[n].Some? && key == "state-" + n)
    {
      assert forall n :: Qualified("bindings", n) == "bindings-" + n;
      assert forall n :: Qualified("pubsub", n) == "pubsub-" + n;
      assert forall n :: Qualified("state", n) == "state-" + n;
    }

    method CollectComponents() returns (components: map<string, Description>)
      ensures components.Keys == Components()
    {
      var ofBindings := Collect(BINDINGS, bindings);
      var ofPubsub := Collect(PUBSUB, pubsub);
      var described := map n | n in states && states[n].Some? :: states[n].value;
      var ofStates := Collect(STATE, described);
      components := ofBindings + ofPubsub + ofStates;
    }

    static method Collect(kind: string, described: map<string, Description>)
        returns (components: map<string, Description>)
      ensures components.Keys == Keys(kind, described.Keys)
    {
      components := map[];
      var rest := described.Keys;
      while rest != {}
        invariant rest <= described.Keys
        invariant components.Keys == Keys(kind, described.Keys - rest)
        decreases rest
      {
        var n :| n in rest;
        assert described.Keys - (rest - {n}) == described.Keys - rest + {n};
        components, rest := components[Qualified(kind, n) := described[n]], rest - {n};
      }
      assert described.Keys - {} == described.Keys;
    }

    /** Creates one object per component, in any order, and records their names; the `failing`-th call to the
        source, counted from 0, fails if there is one. `order` lists the components created. */
    method CreateComponents(source: NameSource, failing: Option<nat>) returns (ok: bool, order: seq<string>)
      modifies this
      ensures Enumerates(order, Listed(order)) && Listed(order) <= Components()
      ensures ok ==> Listed(order) == Components()
      ensures ok <==> (failing.None? || failing.value >= |Components()|)
      ensures !ok ==> |order| == failing.value
      ensures objects == old(objects) + Names(source, name, order)
      ensures resourceRef == if ok then Recorded(old(resourceRef), Names(source, name, order)) else old(resourceRef)
    {
      var components := CollectComponents();
      ok, order := CreateAndRecord(source, failing, components.Keys);
    }

    method CreateAndRecord(source: NameSource, failing: Option<nat>, keys: set<string>)
        returns (ok: bool, order: seq<string>)
      modifies this
      ensures Enumerates(order, Listed(order)) && Listed(order) <= keys && (ok ==> Listed(order) == keys)
      ensures ok <==> (failing.None? || failing.value >= |keys|)
      ensures !ok ==> |order| == failing.value
      ensures objects == old(objects) + Names(source, name, order)
      ensures resourceRef == if ok then Recorded(old(resourceRef), Names(source, name, order)) else old(resourceRef)
    {
      var rest, value;
      rest, order, value := CreateAll(source, failing, keys);
      ok := rest == {};
      if ok {
        Record(Names(source, name, order), value);
      }
    }

    /** Creates the objects of all keys but `rest`, which a failing call has left over. */
    method CreateAll(source: NameSource, failing: Option<nat>, keys: set<string>)
        returns (rest: set<string>, order: seq<string>, value: string)
      modifies this`objects
      ensures Enumerates(order, Listed(order)) && Listed(order) <= keys && (rest == {} ==> Listed(order) == keys)
      ensures rest == {} <==> (failing.None? || failing.value >= |keys|)
      ensures rest != {} ==> |order| == failing.value
      ensures value == Terminated(Names(source, name, order), ',')
      ensures objects == old(objects) + Names(source, name, order)
    {
      rest, order, value := keys, [], "";
      assert keys - rest == {};
      while rest != {}
        invariant Progress(source, name, keys, rest, order, value)
        invariant failing.Some? ==> |order| <= failing.value
        invariant objects == old(objects) + Names(source, name, order)
        decreases rest
      {
        var key :| key in rest;
        if failing == Some(|order|) {
          ProgressSoFar(source, name, keys, rest, order, value);
          return;
        }
        var created := ObjectName(source, name, key);
        ProgressOneMore(source, name, keys, rest, order, value, key);
        objects := objects + [created];
        value := value + created + ",";
        order, rest := order + [key], rest - {key};
      }
      ProgressSoFar(source, name, keys, rest, order, value);
    }

    method Record(ghost names: seq<string>, value: string)
      requires value == Terminated(names, ',')
      modifies this`resourceRef
      ensures resourceRef == Recorded(old(resourceRef), names)
    {
      if value != "" {
        TerminatedIsJoined(names, ',');
        resourceRef := resourceRef[KEY := TrimSuffix(value, ',')];
      }
    }

    /** Walks over the recorded names; the last one that matches counts. */
    method GetRealComponentName(componentName: string, componentType: string) returns (realName: string)
      ensures realName == Resolved(name, resourceRef, componentName, componentType)
    {
      var refs := Split(if KEY in resourceRef then resourceRef[KEY] else "", ',');
      var prefix := GetComponentTypePrefix(componentType);
      var wanted := Wanted(name, prefix, componentName);
      realName := componentName;
      for i := 0 to |refs|
        invariant realName == RealName(refs[..i], wanted, componentName)
      {
        assert refs[..i + 1][..i] == refs[..i];
        if wanted <= refs[i] {
          if '-' !in refs[i][|wanted|..] {
            realName := refs[i];
          }
        }
      }
      assert refs[..|refs|] == refs;
    }
  }

  function Recorded(resourceRef: map<string, string>, names: seq<string>): map<string, string> {
    if names == [] then resourceRef else resourceRef[KEY := Joined(names, ',')]
  }

  function Listed(order: seq<string>): set<string> {
    set key | key in order
  }

  /** A list without repetitions of exactly these keys. */
  predicate Enumerates(order: seq<string>, keys: set<string>) {
    && (forall i, j :: 0 <= i < j < |order| ==> order[i] != order[j])
    && Listed(order) == keys
  }

  lemma EnumeratesOneMore(order: seq<string>, keys: set<string>, key: string)
    requires Enumerates(order, keys) && key !in keys
    ensures Enumerates(order + [key], keys + {key})
  {
    assert key !in Listed(order);
    assert Listed(order + [key]) == Listed(order) + {key};
  }

  function Names(source: NameSource, serving: string, order: seq<string>): (names: seq<string>)
    ensures |names| == |order|
    ensures forall i :: 0 <= i < |order| ==> names[i] == ObjectName(source, serving, order[i])
  {
    seq(|order|, i requires 0 <= i < |order| => ObjectName(source, serving, order[i]))
  }

  lemma NamesOfOneMore(source: NameSource, serving: string, order: seq<string>, key: string)
    ensures Names(source, serving, order + [key]) == Names(source, serving, order) + [ObjectName(source, serving, key)]
    ensures Terminated(Names(source, serving, order + [key]), ',')
         == Terminated(Names(source, serving, order), ',') + ObjectName(source, serving, key) + ","
  {
    var names, more := Names(source, serving, order), Names(source, serving, order + [key]);
    assert more == names + [ObjectName(source, serving, key)];
    assert more[..|order|] == names;
  }

  /** The state of creating components: `rest` are still to be created. */
  predicate Progress(source: NameSource, serving: string, keys: set<string>, rest: set<string>,
                     order: seq<string>, value: string) {
    && rest <= keys && Enumerates(order, keys - rest) && |order| + |rest| == |keys|
    && value == Terminated(Names(source, serving, order), ',')
  }

  lemma ProgressSoFar(source: NameSource, serving: string, keys: set<string>, rest: set<string>,
                      order: seq<string>, value: string)
    requires Progress(source, serving, keys, rest, order, value)
    ensures Enumerates(order, Listed(order)) && Listed(order) <= keys
    ensures rest == {} <==> Listed(order) == keys
    ensures |order| <= |keys| && (rest == {} <==> |order| == |keys|)
  {
    assert rest == {} <==> keys - rest == keys;
  }

  lemma ProgressOneMore(source: NameSource, serving: string, keys: set<string>, rest: set<string>,
                        order: seq<string>, value: string, key: string)
    requires Progress(source, serving, keys, rest, order, value) && key in rest
    ensures Progress(source, serving, keys, rest - {key}, order + [key], value + ObjectName(source, serving, key) + ",")
    ensures Names(source, serving, order + [key]) == Names(source, serving, order) + [ObjectName(source, serving, key)]
  {
    NamesOfOneMore(source, serving, order, key);
    EnumeratesOneMore(order, keys - rest, key);
    assert keys - (rest - {key}) == keys - rest + {key};
  }

  /** What a component resolves to, given what was recorded. */
  function Found(serving: string, resourceRef: map<string, string>, prefix: string, name: string): string {
    RealName(Split(if KEY in resourceRef then resourceRef[KEY] else "", ','), Wanted(serving, prefix, name), name)
  }

  function Resolved(serving: string, resourceRef: map<string, string>, name: string, componentType: string): string {
    Found(serving, resourceRef, TypePrefix(componentType), name)
  }

  // ---------- When a generated name matches ----------

  /** What stands before and after the first dash is unique. */
  lemma FirstDash(a: string, x: string, b: string, y: string)
    requires '-' !in a && '-' !in b && a + "-" + x == b + "-" + y
    ensures a == b && x == y
  {
    var s := a + "-" + x;
    assert s[|a|] == '-' && s[|b|] == '-';
    assert a == s[..|a|] && b == s[..|b|];
    assert x == s[|a| + 1..] && y == s[|b| + 1..];
  }

  /** What stands before and after the last dash is unique. */
  lemma LastDash(a: string, x: string, b: string, y: string)
    requires '-' !in x && '-' !in y && a + "-" + x == b + "-" + y
    ensures a == b && x == y
  {
    var s := a + "-" + x;
    assert s[|a|] == '-' && s[|b|] == '-';
    assert a == s[..|a|] && b == s[..|b|];
    assert x == s[|a| + 1..] && y == s[|b| + 1..];
  }

  /** A generated name that was not cut matches exactly the component it was generated for. */
  lemma OwnNameOnly(serving: string, kind: string, name: string, suffix: string, prefix: string, other: string)
    requires '-' !in suffix && '-' !in kind && '-' !in prefix
    ensures Matches(Base(serving, Qualified(kind, name)) + suffix, Wanted(serving, prefix, other))
      <==> kind == prefix && name == other
  {
    var ref, wanted := Base(serving, Qualified(kind, name)) + suffix, Wanted(serving, prefix, other);
    if Matches(ref, wanted) {
      var rest := ref[|wanted|..];
      var front, back := serving + "-" + kind + "-" + name, serving + "-" + prefix + "-" + other;
      assert front + "-" + suffix == ref == wanted + rest == back + "-" + rest;
      LastDash(front, suffix, back, rest);
      var n := |serving| + 1;
      assert kind + "-" + name == front[n..] == back[n..] == prefix + "-" + other;
      FirstDash(kind, name, prefix, other);
    }
  }

  /** A generated name matches its own component exactly if the server did not have to cut its base. */
  lemma MatchesUnlessCut(source: NameSource, serving: string, kind: string, name: string)
    requires var suffix := source.suffix(Qualified(kind, name)); '-' !in suffix
    ensures Matches(ObjectName(source, serving, Qualified(kind, name)), Wanted(serving, kind, name))
      <==> |Wanted(serving, kind, name)| <= source.limit
  {
    var wanted := Wanted(serving, kind, name);
    var suffix := source.suffix(Qualified(kind, name));
    var ref := ObjectName(source, serving, Qualified(kind, name));
    if |wanted| <= source.limit {
      assert ref[|wanted|..] == suffix;
    } else if wanted <= ref {
      assert wanted[|wanted| - 1] == '-';
      assert ref[|wanted| - 1] == suffix[|wanted| - 1 - source.limit];
    }
  }

  // ---------- The round trip ----------

  /** At most one reference matches, so it does not matter which match is the last one. */
  lemma {:induction false} RealNameFinds(refs: seq<string>, wanted: string, name: string, k: nat)
    requires k < |refs| && Matches(refs[k], wanted)
    requires forall i :: 0 <= i < |refs| && i != k ==> !Matches(refs[i], wanted)
    ensures RealName(refs, wanted, name) == refs[k]
  {
    if k < |refs| - 1 {
      RealNameFinds(refs[..|refs| - 1], wanted, name, k);
    }
  }

  lemma {:induction false} RealNameFindsNothing(refs: seq<string>, wanted: string, name: string)
    requires forall i :: 0 <= i < |refs| ==> !Matches(refs[i], wanted)
    ensures RealName(refs, wanted, name) == name
  {
    if refs != [] {
      RealNameFindsNothing(refs[..|refs| - 1], wanted, name);
    }
  }

  predicate IsKind(kind: string) {
    kind == BINDINGS || kind == PUBSUB || kind == STATE
  }

  /** What the names must look like: no commas, dash-free suffixes. */
  ghost predicate PlainNamed(source: NameSource, serving: string, keys: set<string>) {
    && ',' !in serving
    && forall key :: key in keys ==>
      && ',' !in key && PlainSuffix(source.suffix(key))
      && exists kind, name :: key == Qualified(kind, name) && IsKind(kind)
  }

  /** The server cuts no base. */
  predicate NoneCut(source: NameSource, serving: string, keys: set<string>) {
    forall key :: key in keys ==> |Base(serving, key)| <= source.limit
  }

  lemma NamesHaveNoCommas(source: NameSource, serving: string, keys: set<string>, key: string)
    requires PlainNamed(source, serving, keys) && key in keys
    ensures ',' !in ObjectName(source, serving, key)
  {
    assert ',' !in Base(serving, key);
  }

  /** Which of the listed objects matches a component. */
  lemma MatchingObject(source: NameSource, serving: string, keys: set<string>, key: string, prefix: string, name: string)
    requires PlainNamed(source, serving, keys) && NoneCut(source, serving, keys) && key in keys && '-' !in prefix
    ensures Matches(ObjectName(source, serving, key), Wanted(serving, prefix, name)) <==> key == Qualified(prefix, name)
  {
    var kind, own :| key == Qualified(kind, own) && IsKind(kind);
    OwnNameOnly(serving, kind, own, source.suffix(key), prefix, name);
    if key == Qualified(prefix, name) {
      FirstDash(kind, own, prefix, name);
    }
  }

  lemma FoundAmongNames(source: NameSource, serving: string, order: seq<string>, keys: set<string>,
                        resourceRef: map<string, string>, prefix: string, name: string)
    requires Enumerates(order, keys) && PlainNamed(source, serving, keys) && KEY !in resourceRef
    ensures Found(serving, Recorded(resourceRef, Names(source, serving, order)), prefix, name)
      == RealName(Names(source, serving, order), Wanted(serving, prefix, name), name)
  {
    var refs := Names(source, serving, order);
    forall i | 0 <= i < |order| ensures ',' !in refs[i] {
      assert order[i] in Listed(order);
      NamesHaveNoCommas(source, serving, keys, order[i]);
    }
    if order == [] {
      assert [""][..0] == [];
    } else {
      SplitOfJoined(refs, ',');
    }
  }

  /** Without cuts resolving yields exactly the component's own object, or its name if it has none. */
  lemma UncutIsFound(source: NameSource, serving: string, order: seq<string>, keys: set<string>, prefix: string, name: string)
    requires Enumerates(order, keys) && PlainNamed(source, serving, keys) && NoneCut(source, serving, keys)
    requires '-' !in prefix
    ensures RealName(Names(source, serving, order), Wanted(serving, prefix, name), name)
      == if Qualified(prefix, name) in keys then ObjectName(source, serving, Qualified(prefix, name)) else name
  {
    var wanted, refs := Wanted(serving, prefix, name), Names(source, serving, order);
    forall i | 0 <= i < |order|
      ensures Matches(refs[i], wanted) <==> order[i] == Qualified(prefix, name)
    {
      assert order[i] in Listed(order);
      MatchingObject(source, serving, keys, order[i], prefix, name);
    }
    if Qualified(prefix, name) in keys {
      assert Qualified(prefix, name) in Listed(order);
      var k :| 0 <= k < |order| && order[k] == Qualified(prefix, name);
      RealNameFinds(refs, wanted, name, k);
    } else {
      forall i | 0 <= i < |order| ensures order[i] != Qualified(prefix, name) {
        assert order[i] in Listed(order);
      }
      RealNameFindsNothing(refs, wanted, name);
    }
  }

  /** Main result: whatever the components and the order in which their objects were created, resolving a
      component yields the object generated for it, and a component without one keeps its own name. */
  lemma NameRoundTrip(source: NameSource, serving: string, order: seq<string>, keys: set<string>,
                      resourceRef: map<string, string>, name: string, componentType: string)
    requires Enumerates(order, keys) && PlainNamed(source, serving, keys) && NoneCut(source, serving, keys)
    requires '-' !in TypePrefix(componentType)
    requires KEY !in resourceRef
    ensures var key := Qualified(TypePrefix(componentType), name);
      Resolved(serving, Recorded(resourceRef, Names(source, serving, order)), name, componentType)
        == if key in keys then ObjectName(source, serving, key) else name
  {
    FoundAmongNames(source, serving, order, keys, resourceRef, TypePrefix(componentType), name);
    UncutIsFound(source, serving, order, keys, TypePrefix(componentType), name);
  }

  lemma {:induction false} RealNameMatches(refs: seq<string>, wanted: string, name: string)
    ensures RealName(refs, wanted, name) == name || Matches(RealName(refs, wanted, name), wanted)
  {
    if refs != [] && !Matches(refs[|refs| - 1], wanted) {
      RealNameMatches(refs[..|refs| - 1], wanted, name);
    }
  }

  /** Every component resolves to its own object. */
  ghost predicate AllFound(source: NameSource, serving: string, order: seq<string>, keys: set<string>,
                           resourceRef: map<string, string>) {
    forall kind, name :: IsKind(kind) && Qualified(kind, name) in keys ==>
      Found(serving, Recorded(resourceRef, Names(source, serving, order)), kind, name)
        == ObjectName(source, serving, Qualified(kind, name))
  }

  /** Main result for the types components have: one of type `bindings.x`, `pubsub.x` or `state.x`, whatever x is,
      resolves to the object created for it, and to its own name if there is none. */
  lemma ComponentIsResolved(source: NameSource, serving: string, order: seq<string>, keys: set<string>,
                            resourceRef: map<string, string>, kind: string, rest: string, name: string)
    requires Enumerates(order, keys) && PlainNamed(source, serving, keys) && NoneCut(source, serving, keys)
    requires KEY !in resourceRef && kind in {"bindings", "pubsub", "state"}
    ensures Resolved(serving, Recorded(resourceRef, Names(source, serving, order)), name, kind + "." + rest)
      == if kind + "-" + name in keys
         then serving + "-" + kind + "-" + name + "-" + source.suffix(kind + "-" + name)
         else name
  {
    assert '.' !in kind && '-' !in kind;
    PrefixOfDotted(kind, rest);
    NameRoundTrip(source, serving, order, keys, resourceRef, name, kind + "." + rest);
    if Qualified(kind, name) in keys {
      SpelledOut(serving, kind, name, source.suffix(Qualified(kind, name)));
    }
  }

  lemma SpelledOut(serving: string, kind: string, name: string, suffix: string)
    ensures Base(serving, Qualified(kind, name)) + suffix == serving + "-" + kind + "-" + name + "-" + suffix
  {
    var a := serving + "-";
    assert a + (kind + "-" + name) + "-" == a + kind + "-" + name + "-";
  }

  /** No component is called like the object that was generated for it. */
  ghost predicate NotSelfNamed(source: NameSource, serving: string, keys: set<string>) {
    forall kind, name :: Qualified(kind, name) in keys ==> name != ObjectName(source, serving, Qualified(kind, name))
  }

  lemma EachIsFound(source: NameSource, serving: string, order: seq<string>, keys: set<string>,
                    resourceRef: map<string, string>, kind: string, name: string)
    requires Enumerates(order, keys) && PlainNamed(source, serving, keys) && NoneCut(source, serving, keys)
    requires KEY !in resourceRef && IsKind(kind) && Qualified(kind, name) in keys
    ensures Found(serving, Recorded(resourceRef, Names(source, serving, order)), kind, name)
      == ObjectName(source, serving, Qualified(kind, name))
  {
    FoundAmongNames(source, serving, order, keys, resourceRef, kind, name);
    UncutIsFound(source, serving, order, keys, kind, name);
  }

  lemma UncutAreFound(source: NameSource, serving: string, order: seq<string>, keys: set<string>,
                      resourceRef: map<string, string>)
    requires Enumerates(order, keys) && PlainNamed(source, serving, keys) && NoneCut(source, serving, keys)
    requires KEY !in resourceRef
    ensures AllFound(source, serving, order, keys, resourceRef)
  {
    forall kind, name | IsKind(kind) && Qualified(kind, name) in keys
      ensures Found(serving, Recorded(resourceRef, Names(source, serving, order)), kind, name)
        == ObjectName(source, serving, Qualified(kind, name))
    {
      EachIsFound(source, serving, order, keys, resourceRef, kind, name);
    }
  }

  /** Main result: exactly when all components resolve to their own objects - when the server cuts no base. */
  lemma WhenAllAreFound(source: NameSource, serving: string, order: seq<string>, keys: set<string>,
                        resourceRef: map<string, string>)
    requires Enumerates(order, keys) && PlainNamed(source, serving, keys) && NotSelfNamed(source, serving, keys)
    requires KEY !in resourceRef
    ensures AllFound(source, serving, order, keys, resourceRef) <==> NoneCut(source, serving, keys)
  {
    if NoneCut(source, serving, keys) {
      UncutAreFound(source, serving, order, keys, resourceRef);
    } else {
      var key :| key in keys && |Base(serving, key)| > source.limit;
      CutIsNotFound(source, serving, order, keys, resourceRef, key);
    }
  }

  lemma CutIsNotFound(source: NameSource, serving: string, order: seq<string>, keys: set<string>,
                      resourceRef: map<string, string>, key: string)
    requires Enumerates(order, keys) && PlainNamed(source, serving, keys) && NotSelfNamed(source, serving, keys)
    requires KEY !in resourceRef && key in keys && |Base(serving, key)| > source.limit
    ensures !AllFound(source, serving, order, keys, resourceRef)
  {
    var kind, name :| key == Qualified(kind, name) && IsKind(kind);
    FoundAmongNames(source, serving, order, keys, resourceRef, kind, name);
    RealNameMatches(Names(source, serving, order), Wanted(serving, kind, name), name);
    MatchesUnlessCut(source, serving, kind, name);
    assert name != ObjectName(source, serving, Qualified(kind, name));
  }

  /** When the server cuts a base, one component may be taken for another: the object made for `a-long` is
      found when `a` is resolved. */
  lemma CutNameIsMistaken()
    ensures var source := NameSource(key => "x7", 15);
      var objects := Names(source, "fn", ["bindings-a", "bindings-a-long"]);
      RealName(objects, Wanted("fn", BINDINGS, "a"), "a") == objects[1] == "fn-bindings-a-lx7"
        == ObjectName(source, "fn", "bindings-a-long")
  {
    var source := NameSource(key => "x7", 15);
    var objects := Names(source, "fn", ["bindings-a", "bindings-a-long"]);
    assert Base("fn", "bindings-a-long") == "fn-bindings-a-long-";
    assert objects[1] == "fn-bindings-a-lx7";
  }
}

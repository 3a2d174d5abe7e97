/** Who owns which listener, over whole histories of a Gateway object that refers to Kubernetes Gateways it
    shares with others. Attempts may stop at any API call; others edit, delete and recreate the gateways. */
module GatewayHistory {
  import opened Api
  import opened GatewayMerge

  /** `foreign` is what others have put into the gateways. `unrecorded` is the specification that was merged last, if
      the annotation for it was not written. */
  datatype World = World(
    spec: GatewaySpec,
    last: Option<GatewaySpec>,
    live: LiveMap,
    foreign: LiveMap,
    unrecorded: Option<GatewaySpec>)

  /** Where an attempt stops: at the Update that cleans, that merges, that annotates, or not at all. */
  datatype Stop = Cleaning | Merging | Annotating | Complete

  datatype Event =
    | Edit(spec: GatewaySpec)
    | Others(key: Key, listeners: Option<Listeners>)
    | Tries(stop: Stop)

  /** Others replace their own listeners and leave the rest alone, or delete the gateway. */
  function OthersStep(own: set<string>, w: World, k: Key, listeners: Option<Listeners>): World {
    match listeners
    case None => w.(live := w.live - {k}, foreign := w.foreign - {k})
    case Some(theirs) =>
      var ours := if k in w.live then w.live[k] - (w.live[k].Keys - own) else map[];
      w.(live := w.live[k := ours + theirs], foreign := w.foreign[k := theirs])
  }

  function AttemptStep(w: World, stop: Stop): World {
    if stop.Cleaning? then w
    else
      var clean := CleanedExternal(w.last, w.spec, w.live);
      if stop.Merging? || !Completes(w.spec, clean) then w.(live := clean)
      else
        var merged := w.(live := Applied(w.last, w.spec, clean));
        if stop.Annotating? then merged.(unrecorded := Some(w.spec))
        else merged.(last := Annotated(w.last, w.spec), unrecorded := None)
  }

  function Step(own: set<string>, w: World, e: Event): World {
    match e
    case Edit(spec) => w.(spec := spec)
    case Others(k, listeners) => OthersStep(own, w, k, listeners)
    case Tries(stop) => AttemptStep(w, stop)
  }

  function Run(own: set<string>, w: World, es: seq<Event>): World {
    if es == [] then w else Step(own, Run(own, w, es[..|es| - 1]), es[|es| - 1])
  }

  /** The specification refers to a gateway, defines none, and names only listeners of the operator's own. */
  predicate Refers(own: set<string>, spec: GatewaySpec) {
    spec.def.None? && Mapping(spec.listeners).Keys <= own
  }

  function Names(spec: GatewaySpec): set<string> {
    Mapping(spec.listeners).Keys
  }

  /** The names that a complete attempt for `spec` removes from gateway `k` or overwrites there. */
  function Covered(last: Option<GatewaySpec>, spec: GatewaySpec, k: Key): set<string> {
    if spec.ref == Some(k) then LastListeners(last).Keys + Names(spec)
    else Claim(last, k)
  }

  /** May an edit to `spec` follow the unrecorded merge of `merged`? Everything merged must be covered: named by the
      new specification or by the one applied last, for the same gateway. */
  predicate Harmless(last: Option<GatewaySpec>, merged: GatewaySpec, spec: GatewaySpec) {
    merged.ref.Some? ==> Names(merged) <= Covered(last, spec, merged.ref.value)
  }

  /** Names are kept apart, and an edit after an unrecorded merge is harmless. */
  predicate Allowed(own: set<string>, w: World, e: Event) {
    match e
    case Edit(spec) => Refers(own, spec) && (w.unrecorded.Some? ==> Harmless(w.last, w.unrecorded.value, spec))
    case Others(_, listeners) => listeners.Some? ==> ByName(listeners.value) && listeners.value.Keys !! own
    case Tries(_) => true
  }

  predicate AllAllowed(own: set<string>, w: World, es: seq<Event>) {
    es != [] ==>
      && AllAllowed(own, w, es[..|es| - 1])
      && Allowed(own, Run(own, w, es[..|es| - 1]), es[|es| - 1])
  }

  predicate Start(own: set<string>, w: World) {
    && w.live == w.foreign && w.unrecorded.None? && Refers(own, w.spec)
    && (w.last.None? || w.last.value == ZERO_SPEC)
    && forall k :: k in w.foreign ==> w.foreign[k].Keys !! own
  }

  // ---------- The invariant ----------

  function Claim(spec: Option<GatewaySpec>, k: Key): set<string> {
    if spec.Some? && spec.value.ref == Some(k) then Names(spec.value) else {}
  }

  /** The names by which listeners of the operator may be found in gateway `k`. */
  function Claims(w: World, k: Key): set<string> {
    Claim(w.last, k) + Claim(w.unrecorded, k)
  }

  /** In a gateway: foreign listeners untouched, and no listener of the operator without a claim. */
  predicate Sound(own: set<string>, claims: set<string>, live: Listeners, foreign: Listeners) {
    live - own == foreign && live.Keys * own <= claims
  }

  predicate Inv(own: set<string>, w: World) {
    && w.live.Keys == w.foreign.Keys
    && Refers(own, w.spec) && (w.last.Some? ==> Refers(own, w.last.value))
    && (w.unrecorded.Some? ==> Harmless(w.last, w.unrecorded.value, w.spec))
    && forall k :: k in w.live ==> Sound(own, Claims(w, k), w.live[k], w.foreign[k])
  }

  lemma OthersKeepInv(own: set<string>, w: World, k: Key, listeners: Option<Listeners>)
    requires Inv(own, w) && Allowed(own, w, Others(k, listeners))
    ensures Inv(own, OthersStep(own, w, k, listeners))
  {
    var v := OthersStep(own, w, k, listeners);
    if listeners.Some? {
      var ours := if k in w.live then w.live[k] - (w.live[k].Keys - own) else map[];
      assert ours.Keys <= own;
      assert ours + listeners.value - own == listeners.value;
      if k in w.live {
        assert Sound(own, Claims(w, k), w.live[k], w.foreign[k]);
        assert (ours + listeners.value).Keys * own <= w.live[k].Keys * own;
      }
      assert Sound(own, Claims(v, k), v.live[k], v.foreign[k]);
    }
  }

  /** What an attempt has cleaned: whatever was applied last is gone from a gateway no longer referred to. */
  lemma CleaningKeepsSound(own: set<string>, w: World, k: Key)
    requires Inv(own, w) && k in w.live
    ensures var clean := CleanedExternal(w.last, w.spec, w.live);
      && clean.Keys == w.live.Keys
      && Sound(own, Claims(w, k), clean[k], w.foreign[k])
      && (w.spec.ref != Some(k) ==> clean[k].Keys * own == {})
  {
    var clean := CleanedExternal(w.last, w.spec, w.live);
    assert Sound(own, Claims(w, k), w.live[k], w.foreign[k]);
    if w.last.Some? && w.last.value.ref == Some(k) {
      var names := Mapping(w.last.value.listeners).Keys;
      assert w.live[k] - names - own == w.live[k] - own;
    }
  }

  /** On mappings alone: merging leaves the foreign listeners and the wanted ones exactly if every own live listener
      was applied last or is wanted. */
  lemma MergeIsExact(own: set<string>, before: Listeners, wanted: Listeners, live: Listeners, foreign: Listeners)
    requires before.Keys <= own && wanted.Keys <= own && live - own == foreign
    ensures Merge(before, wanted, live) == foreign + wanted <==> live.Keys * own <= before.Keys + wanted.Keys
  {
    if live.Keys * own <= before.Keys + wanted.Keys {
      MergeKeepsWanted(own, before, wanted, live, foreign);
    } else {
      var n :| n in live.Keys * own && n !in before.Keys + wanted.Keys;
      assert n in Merge(before, wanted, live) && n !in foreign + wanted;
    }
  }

  lemma MergeKeepsWanted(own: set<string>, before: Listeners, wanted: Listeners, live: Listeners, foreign: Listeners)
    requires before.Keys <= own && wanted.Keys <= own
    requires live - own == foreign && live.Keys * own <= before.Keys + wanted.Keys
    ensures Merge(before, wanted, live) == foreign + wanted
  {
    forall n | n !in wanted ensures n in live - (before.Keys - wanted.Keys) <==> n in foreign {
      if n in live && n in own {
        assert n in live.Keys * own;
      }
    }
  }

  /** What every gateway holds once an attempt has merged. */
  function Ideal(w: World): LiveMap {
    map k | k in w.foreign ::
      if w.spec.ref == Some(k) then w.foreign[k] + Mapping(w.spec.listeners) else w.foreign[k]
  }

  lemma Disjoint(own: set<string>, live: Listeners)
    requires live.Keys * own == {}
    ensures live - own == live
  {
    forall n | n in live ensures n !in own {
      assert n in own ==> n in live.Keys * own;
    }
  }

  /** Foreign listeners are intact; nothing is said about the operator's own. */
  predicate Apart(own: set<string>, w: World) {
    && w.live.Keys == w.foreign.Keys
    && Refers(own, w.spec) && (w.last.Some? ==> Refers(own, w.last.value))
    && forall k :: k in w.live ==> w.live[k] - own == w.foreign[k]
  }

  lemma CleaningExternally(own: set<string>, w: World, k: Key)
    requires Apart(own, w) && k in w.live
    ensures var clean := CleanedExternal(w.last, w.spec, w.live);
      && clean.Keys == w.live.Keys
      && clean[k] == if w.spec.ref == Some(k) then w.live[k] else w.live[k] - Claim(w.last, k)
  {
    assert w.live[k] - {} == w.live[k];
  }

  lemma RemovedExactly(own: set<string>, live: Listeners, names: set<string>)
    requires names <= own
    ensures live - names == live - own <==> live.Keys * own <= names
  {
    if live.Keys * own <= names {
      forall n | n in live && n !in names ensures n !in own {
        assert n in own ==> n in live.Keys * own;
      }
      assert live - names == live - own;
    } else {
      var n :| n in live.Keys * own && n !in names;
      assert n in live - names && n !in live - own;
    }
  }

  lemma OneIsIdeal(own: set<string>, w: World, k: Key)
    requires Apart(own, w) && k in w.live
    requires Completes(w.spec, CleanedExternal(w.last, w.spec, w.live))
    ensures var applied := Applied(w.last, w.spec, CleanedExternal(w.last, w.spec, w.live));
      k in applied && (applied[k] == Ideal(w)[k] <==> w.live[k].Keys * own <= Covered(w.last, w.spec, k))
  {
    CleaningExternally(own, w, k);
    if w.spec.ref == Some(k) {
      MergeIsExact(own, LastListeners(w.last), Mapping(w.spec.listeners), w.live[k], w.foreign[k]);
    } else {
      RemovedExactly(own, w.live[k], Claim(w.last, k));
    }
  }

  /** Exactly when a complete attempt leaves every gateway as it should be: all of the operator's own listeners that
      are around are covered by the specification or the one applied last. */
  lemma WhenAttemptIsIdeal(own: set<string>, w: World)
    requires Apart(own, w)
    requires Completes(w.spec, CleanedExternal(w.last, w.spec, w.live))
    ensures Applied(w.last, w.spec, CleanedExternal(w.last, w.spec, w.live)) == Ideal(w) <==>
      forall k :: k in w.live ==> w.live[k].Keys * own <= Covered(w.last, w.spec, k)
  {
    var applied := Applied(w.last, w.spec, CleanedExternal(w.last, w.spec, w.live));
    assert applied.Keys == Ideal(w).Keys by {
      if k :| k in w.live { CleaningExternally(own, w, k); }
    }
    forall k | k in w.live
      ensures applied[k] == Ideal(w)[k] <==> w.live[k].Keys * own <= Covered(w.last, w.spec, k)
    {
      OneIsIdeal(own, w, k);
    }
  }

  lemma InvIsApart(own: set<string>, w: World)
    requires Inv(own, w)
    ensures Apart(own, w)
  {
    forall k | k in w.live ensures w.live[k] - own == w.foreign[k] {
      assert Sound(own, Claims(w, k), w.live[k], w.foreign[k]);
    }
  }

  lemma ClaimsAreCovered(own: set<string>, w: World, k: Key)
    requires Inv(own, w) && k in w.live
    ensures w.live[k].Keys * own <= Covered(w.last, w.spec, k)
  {
    assert Sound(own, Claims(w, k), w.live[k], w.foreign[k]);
    assert Claims(w, k) <= Covered(w.last, w.spec, k);
  }

  lemma MergedIsIdeal(own: set<string>, w: World)
    requires Inv(own, w)
    requires Completes(w.spec, CleanedExternal(w.last, w.spec, w.live))
    ensures Applied(w.last, w.spec, CleanedExternal(w.last, w.spec, w.live)) == Ideal(w)
  {
    InvIsApart(own, w);
    forall k | k in w.live ensures w.live[k].Keys * own <= Covered(w.last, w.spec, k) {
      ClaimsAreCovered(own, w, k);
    }
    WhenAttemptIsIdeal(own, w);
  }

  lemma IdealIsSound(own: set<string>, w: World, k: Key)
    requires Inv(own, w) && k in w.live
    ensures Sound(own, Claim(Some(w.spec), k), Ideal(w)[k], w.foreign[k])
  {
    assert Sound(own, Claims(w, k), w.live[k], w.foreign[k]);
    assert w.foreign[k] - own == w.foreign[k];
    assert w.foreign[k] + Mapping(w.spec.listeners) - own == w.foreign[k];
  }

  lemma CleaningKeepsInv(own: set<string>, w: World)
    requires Inv(own, w)
    ensures Inv(own, w.(live := CleanedExternal(w.last, w.spec, w.live)))
  {
    var clean := CleanedExternal(w.last, w.spec, w.live);
    assert clean.Keys == w.live.Keys;
    forall k | k in w.live ensures Sound(own, Claims(w, k), clean[k], w.foreign[k]) {
      CleaningKeepsSound(own, w, k);
    }
  }

  lemma MergingKeepsInv(own: set<string>, w: World, v: World)
    requires Inv(own, w) && v.live == Ideal(w) && v.foreign == w.foreign && v.spec == w.spec
    requires v.last.Some? ==> Refers(own, v.last.value)
    requires forall k :: Claim(Some(w.spec), k) <= Claims(v, k)
    requires v.unrecorded.Some? ==> v.unrecorded.value == v.spec
    ensures Inv(own, v)
  {
    forall k | k in w.live ensures Sound(own, Claims(v, k), v.live[k], v.foreign[k]) {
      IdealIsSound(own, w, k);
    }
  }

  lemma AttemptKeepsInv(own: set<string>, w: World, stop: Stop)
    requires Inv(own, w)
    ensures Inv(own, AttemptStep(w, stop))
  {
    if !stop.Cleaning? {
      if stop.Merging? || !Completes(w.spec, CleanedExternal(w.last, w.spec, w.live)) {
        CleaningKeepsInv(own, w);
      } else {
        MergedIsIdeal(own, w);
        MergingKeepsInv(own, w, AttemptStep(w, stop));
      }
    }
  }

  lemma StepKeepsInv(own: set<string>, w: World, e: Event)
    requires Inv(own, w) && Allowed(own, w, e)
    ensures Inv(own, Step(own, w, e))
  {
    match e
    case Edit(spec) =>
      var v := Step(own, w, e);
      forall k | k in v.live ensures Sound(own, Claims(v, k), v.live[k], v.foreign[k]) {
        assert Claims(v, k) == Claims(w, k);
      }
    case Others(k, listeners) => OthersKeepInv(own, w, k, listeners);
    case Tries(stop) => AttemptKeepsInv(own, w, stop);
  }

  lemma {:induction false} RunKeepsInv(own: set<string>, w: World, es: seq<Event>)
    requires Start(own, w) && AllAllowed(own, w, es)
    ensures Inv(own, Run(own, w, es))
  {
    if es == [] {
      forall k | k in w.live ensures Sound(own, Claims(w, k), w.live[k], w.foreign[k]) {
        assert w.live[k] - own == w.live[k];
      }
    } else {
      RunKeepsInv(own, w, es[..|es| - 1]);
      StepKeepsInv(own, Run(own, w, es[..|es| - 1]), es[|es| - 1]);
    }
  }

  // ---------- Ownership ----------

  /** Main result: through any history in which attempts stop anywhere, what others put into a gateway is always
      intact, and after an attempt that completes every gateway holds exactly that, plus what the specification
      asks for in the one it refers to. */
  lemma ListenersAreOwned(own: set<string>, w: World, es: seq<Event>)
    requires Start(own, w) && AllAllowed(own, w, es)
    ensures var v := Run(own, w, es);
      && v.live.Keys == v.foreign.Keys
      && (forall k :: k in v.live ==> v.live[k] - own == v.foreign[k])
      && (Completes(v.spec, v.live) ==> AttemptStep(v, Complete).live == Ideal(v))
  {
    RunKeepsInv(own, w, es);
    var v := Run(own, w, es);
    forall k | k in v.live ensures v.live[k] - own == v.foreign[k] {
      assert Sound(own, Claims(v, k), v.live[k], v.foreign[k]);
    }
    if Completes(v.spec, v.live) {
      assert CleanedExternal(v.last, v.spec, v.live).Keys == v.live.Keys by {
        if k :| k in v.live { CleaningKeepsSound(own, v, k); }
      }
      MergedIsIdeal(own, v);
    }
  }

  lemma IdealHolds(own: set<string>, w: World, k: Key)
    requires Inv(own, w) && k in w.live
    ensures Ideal(w)[k].Keys * own == Claim(Some(w.spec), k)
  {
    IdealIsSound(own, w, k);
    assert w.foreign[k].Keys * own == {} by {
      assert Sound(own, Claims(w, k), w.live[k], w.foreign[k]);
    }
  }

  /** Main result on interrupted attempts: an attempt for `s1` merges, but its annotation is not written; the
      specification is edited to `s2`; an attempt completes. Exactly when the edit was harmless - the names of `s1`
      are among those of `s2` or of the specification applied last, for the same gateway - every gateway then
      holds what it should. */
  lemma WhenEditAfterMergeIsHarmless(own: set<string>, w: World, s2: GatewaySpec)
    requires Inv(own, w) && Refers(own, s2)
    requires Completes(w.spec, CleanedExternal(w.last, w.spec, w.live))
    requires Completes(s2, w.live)
    ensures var edited := AttemptStep(w, Annotating).(spec := s2);
      AttemptStep(edited, Complete).live == Ideal(edited) <==> Harmless(w.last, w.spec, s2)
  {
    var edited := AttemptStep(w, Annotating).(spec := s2);
    AttemptKeepsInv(own, w, Annotating);
    MergedIsIdeal(own, w);
    InvIsApart(own, AttemptStep(w, Annotating));
    InvIsApart(own, w);
    CleaningKeepsKeys(own, w);
    CleaningKeepsKeys(own, edited);
    forall k | k in edited.live ensures edited.live[k].Keys * own == Claim(Some(w.spec), k) {
      IdealHolds(own, w, k);
    }
    WhenLeftoversAreCovered(own, edited, w.spec);
  }

  /** The same for gateways in which the operator's own listeners are exactly those of `merged`. */
  lemma WhenLeftoversAreCovered(own: set<string>, w: World, merged: GatewaySpec)
    requires Apart(own, w) && (merged.ref.Some? ==> merged.ref.value in w.live)
    requires Completes(w.spec, CleanedExternal(w.last, w.spec, w.live))
    requires forall k :: k in w.live ==> w.live[k].Keys * own == Claim(Some(merged), k)
    ensures AttemptStep(w, Complete).live == Ideal(w) <==> Harmless(w.last, merged, w.spec)
  {
    WhenAttemptIsIdeal(own, w);
    HarmlessEverywhere(w, merged);
  }

  lemma HarmlessEverywhere(w: World, merged: GatewaySpec)
    requires merged.ref.Some? ==> merged.ref.value in w.live
    ensures Harmless(w.last, merged, w.spec) <==>
      forall k :: k in w.live ==> Claim(Some(merged), k) <= Covered(w.last, w.spec, k)
  {
  }

  lemma CleaningKeepsKeys(own: set<string>, w: World)
    requires Apart(own, w)
    ensures CleanedExternal(w.last, w.spec, w.live).Keys == w.live.Keys
  {
    if k :| k in w.live { CleaningExternally(own, w, k); }
  }

  /** Main result: when the object is deleted, possibly after an edit that was never reconciled, the gateways are
      given back exactly if everything the last complete attempt put there is named by the specification of the
      moment. Deletion looks at that specification only, not at the one applied last. */
  lemma DeletionGivesBack(own: set<string>, w: World, spec: GatewaySpec)
    requires Inv(own, w) && w.live == Ideal(w) && Refers(own, spec)
    ensures Cleaned(spec, w.live) == w.foreign <==>
      || w.spec.ref.None? || w.spec.ref.value !in w.live || w.spec.listeners == []
      || (spec.ref == w.spec.ref && Mapping(w.spec.listeners).Keys <= Mapping(spec.listeners).Keys)
  {
    CleanedAll(own, w, spec);
    NothingApplied(w.spec);
  }

  lemma CleanedAll(own: set<string>, w: World, spec: GatewaySpec)
    requires Inv(own, w) && w.live == Ideal(w) && Refers(own, spec)
    ensures Cleaned(spec, w.live) == w.foreign <==>
      (w.spec.ref.Some? && w.spec.ref.value in w.live ==> GivenBack(w, spec, w.spec.ref.value))
  {
    var cleaned := Cleaned(spec, w.live);
    assert cleaned.Keys == w.foreign.Keys;
    forall k | k in w.live
      ensures cleaned[k] == w.foreign[k] <==> GivenBack(w, spec, k)
    {
      CleanedOne(own, w, spec, k);
    }
  }

  predicate GivenBack(w: World, spec: GatewaySpec, k: Key) {
    w.spec.ref == Some(k) ==> Mapping(w.spec.listeners).Keys <= Claim(Some(spec), k)
  }

  lemma NothingApplied(spec: GatewaySpec)
    ensures spec.listeners == [] <==> Mapping(spec.listeners).Keys == {}
  {
    if spec.listeners != [] {
      assert spec.listeners[0].name in Mapping(spec.listeners);
    }
  }

  lemma Restored(theirs: Listeners, ours: Listeners, named: set<string>)
    requires theirs.Keys !! ours.Keys && theirs.Keys !! named
    ensures theirs + ours - named == theirs <==> ours.Keys <= named
  {
    if ours.Keys <= named {
      assert theirs + ours - named == theirs;
    } else {
      var n :| n in ours && n !in named;
      assert n in theirs + ours - named && n !in theirs;
    }
  }

  lemma ForeignIsForeign(own: set<string>, w: World, k: Key)
    requires Inv(own, w) && k in w.live
    ensures w.foreign[k].Keys !! own
  {
    assert Sound(own, Claims(w, k), w.live[k], w.foreign[k]);
  }

  lemma CleanedOne(own: set<string>, w: World, spec: GatewaySpec, k: Key)
    requires Inv(own, w) && w.live == Ideal(w) && Refers(own, spec) && k in w.live
    ensures k in Cleaned(spec, w.live)
    ensures Cleaned(spec, w.live)[k] == w.foreign[k] <==> GivenBack(w, spec, k)
  {
    var theirs, ours, named := w.foreign[k], Mapping(w.spec.listeners), Claim(Some(spec), k);
    ForeignIsForeign(own, w, k);
    CleanedAt(spec, w.live, k);
    if w.spec.ref == Some(k) {
      assert w.live[k] == theirs + ours;
      Restored(theirs, ours, named);
    } else {
      assert w.live[k] == theirs && theirs - named == theirs;
    }
  }

  lemma CleanedAt(spec: GatewaySpec, live: LiveMap, k: Key)
    requires spec.def.None? && k in live
    ensures k in Cleaned(spec, live) && Cleaned(spec, live)[k] == live[k] - Claim(Some(spec), k)
  {
    assert live[k] - {} == live[k];
  }

  /** The controller's own attempt is a complete one of a history, one that stops at a missing gateway, or - if there
      are no annotations to record it in - one that merges without recording. */
  method Attempt(r: GatewayReconciler, ghost w: World) returns (outcome: Outcome)
    requires !r.gateway.deleting
    requires w.spec == r.gateway.spec && w.last == r.gateway.LastApplied() && w.live == Live(r.gateways)
    modifies r
    ensures outcome == Unsuccessful <==> !Completes(w.spec, CleanedExternal(w.last, w.spec, w.live))
    ensures var v := AttemptStep(w, if outcome == Panicked then Annotating else Complete);
      v.live == Live(r.gateways) && v.last == r.gateway.LastApplied() && v.spec == r.gateway.spec
  {
    outcome := r.Reconcile();
  }

  // ---------- Why an edit must wait for the annotation ----------

  const SHARED := Key("team", "edge")
  const HTTP := Listener("fn-http", "80")
  const GRPC := Listener("fn-grpc", "90")

  function Wants(l: Listener): GatewaySpec {
    GatewaySpec("", Some(SHARED), None, [l])
  }

  /** If the annotation of a merge is not written and the specification is edited meanwhile, the listener merged
      first stays in the shared gateway although nobody asks for it any more. */
  lemma InterruptedMergeLeaksListener()
    ensures var w := World(Wants(HTTP), Some(ZERO_SPEC), map[SHARED := map[]], map[SHARED := map[]], None);
      && Start({"fn-http", "fn-grpc"}, w)
      && var v := Run({"fn-http", "fn-grpc"}, w, [Tries(Annotating), Edit(Wants(GRPC)), Tries(Complete)]);
        && v.last == Some(v.spec) && v.spec == Wants(GRPC)
        && v.live == map[SHARED := map["fn-http" := HTTP, "fn-grpc" := GRPC]]
  {
    var own := {"fn-http", "fn-grpc"};
    var w := World(Wants(HTTP), Some(ZERO_SPEC), map[SHARED := map[]], map[SHARED := map[]], None);
    var es := [Tries(Annotating), Edit(Wants(GRPC)), Tries(Complete)];
    MappingOfOne(HTTP);
    MappingOfOne(GRPC);
    assert es[..2][..1] == [Tries(Annotating)];
    assert es[..2] == [Tries(Annotating), Edit(Wants(GRPC))];
    MergedOnce(Some(ZERO_SPEC), HTTP, map[]);
    var first := w.(live := map[SHARED := map["fn-http" := HTTP]], unrecorded := Some(Wants(HTTP)));
    assert AttemptStep(w, Annotating) == first;
    assert Run(own, w, [Tries(Annotating)]) == first by {
      assert [Tries(Annotating)][..0] == [];
    }
    var second := first.(spec := Wants(GRPC));
    assert Run(own, w, es[..2]) == second;
    MergedOnce(Some(ZERO_SPEC), GRPC, map["fn-http" := HTTP]);
    assert AttemptStep(second, Complete).live == map[SHARED := map["fn-http" := HTTP, "fn-grpc" := GRPC]];
  }

  lemma MergedOnce(last: Option<GatewaySpec>, l: Listener, live: Listeners)
    requires last == Some(ZERO_SPEC)
    ensures CleanedExternal(last, Wants(l), map[SHARED := live]) == map[SHARED := live]
    ensures Applied(last, Wants(l), map[SHARED := live]) == map[SHARED := live[l.name := l]]
  {
    MappingOfOne(l);
    assert Merge(LastListeners(last), Mapping([l]), live) == live[l.name := l];
  }

  lemma MappingOfOne(l: Listener)
    ensures Mapping([l]) == map[l.name := l]
  {
    assert [l][..0] == [];
  }
}

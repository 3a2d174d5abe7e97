/** What an undisturbed attempt brings about, in terms of the function's specification and status alone: when a
    builder or a serving is created, what it looks like, and what the status says afterwards. */
module AttemptOutcome {
  import opened Api
  import opened FunctionLogic
  import opened BuilderHistory
  import C = FunctionController
  import L = Lifecycle

  // ---------- What is compared ----------

  /** What identifies a build: what is built, from which image, with which credentials. History limits, age and
      timeout do not, nor does anything outside the build. */
  function BuildHash(h: Hashes, spec: FunctionSpec): int {
    match spec.build
    case None => h.builder(BuilderSpec(BuildSpec("", None, None, None, None), "", "", false))
    case Some(b) => h.builder(BuilderSpec(BuildSpec(b.engine, None, None, None, None), spec.image, spec.credentials, false))
  }

  predicate Unfinished(b: Builder) {
    b.status.state == NoState || b.status.state == Building
  }

  /** The recorded build does not do: there is none, it is not the one wanted, or it has gone before it succeeded. */
  predicate BuildIsMissing(h: Hashes, s: Store) {
    match s.fn.status.build
    case None => true
    case Some(c) =>
      || c.hash != Some(BuildHash(h, s.fn.spec))
      || (s.fn.spec.build.Some? && (c.ref.None? || (c.ref.value !in s.builders && c.state != Succeeded)))
  }

  /** The serving the function asks for. */
  function WantedServing(f: Function, impl: string, revision: Option<string>): ServingSpec {
    ServingSpec(f.spec.version,
                if revision.None? || revision.value == "" then f.spec.image else Repo(f.spec.image) + "@" + revision.value,
                f.spec.credentials, impl)
  }

  function ServingHash(h: Hashes, f: Function): int {
    match f.spec.serving
    case None => h.serving(ServingSpec("", "", "", ""))
    case Some(impl) => h.serving(WantedServing(f, impl, f.status.revision))
  }

  /** No serving is to be had before the build is over; then one is, unless the recorded one does. */
  predicate ServingIsMissing(h: Hashes, s: Store) {
    && s.fn.status.serving.Some?
    && (s.fn.status.build.Some? ==> s.fn.status.build.value.state in {Succeeded, Skipped})
    && var c := s.fn.status.serving.value;
      || c.state == NoState
      || c.hash != Some(ServingHash(h, s.fn))
      || (s.fn.spec.serving.Some? && (c.ref.None? || c.ref.value !in s.servings))
  }

  lemma HashesAgree(h: Hashes, f: Function)
    ensures BuilderHash(h, CreateBuilderSpec(f.spec)) == BuildHash(h, f.spec)
    ensures h.serving(CreateServingSpec(f)) == ServingHash(h, f)
  {
  }

  lemma NeedsAgree(h: Hashes, s: Store)
    ensures Needs(h, s) <==> BuildIsMissing(h, s)
    ensures NeedServing(h, s.fn, Find(s.servings, Ref(s.fn.status.serving))) <==> ServingIsMissing(h, s)
  {
    HashesAgree(h, s.fn);
  }

  /** The serving part of an attempt leaves builders and the record of the build alone. */
  lemma ServingPartLeavesBuild(h: Hashes, s: Store)
    ensures var s' := C.ServingPart(h, s);
      && s'.builders == s.builders && s'.fn.spec == s.fn.spec && s'.fn.status.build == s.fn.status.build
      && s'.fn.status.revision == s.fn.status.revision
  {
  }

  lemma NoneIsUnfinished(bs: map<Name, Builder>)
    ensures Api.Unfinished(bs) == {} <==> forall n :: n in bs ==> !Unfinished(bs[n])
  {
    if n :| n in bs && Unfinished(bs[n]) {
      assert n in Api.Unfinished(bs);
    }
  }

  // ---------- Building ----------

  /** Main result on creating builders: exactly when an attempt creates one - there is something to build, nothing is
      being built, and the recorded build does not do - and what it and the record of it look like. */
  lemma WhenBuilderIsCreated(h: Hashes, s: Store, c: C.Choice)
    requires s.next !in s.builders
    ensures var s' := C.Attempt(h, s, c);
      && (s.next in s'.builders <==>
            s.fn.spec.build.Some? && BuildIsMissing(h, s) && forall n :: n in s.builders ==> !Unfinished(s.builders[n]))
      && (s.next in s'.builders ==>
            && s'.builders[s.next] == Builder(
                 BuilderSpec(s.fn.spec.build.value, s.fn.spec.image, s.fn.spec.credentials, false), c.at,
                 BuilderStatus(NoPhase, NoState, "", "", None), 0)
            && s'.fn.status.build == Some(
                 Condition(Created, "", "", Some(s.next), None, Some(BuildHash(h, s.fn.spec)), ""))
            && (forall n :: n in s'.builders && n != s.next <==> n in s.builders && n in c.kept)
            && s'.servings.Keys <= s.servings.Keys)
  {
    NeedsAgree(h, s);
    HashesAgree(h, s.fn);
    ServingPartLeavesBuild(h, C.BuilderPart(h, s, c));
    NoneIsUnfinished(s.builders);
  }

  /** While another build is under way the attempt asks it to stop, creates and deletes nothing, and leaves a record
      without builder, so that the next attempt tries again. */
  lemma RunningBuildIsCancelled(h: Hashes, s: Store, c: C.Choice)
    requires BuildIsMissing(h, s) && exists n :: n in s.builders && Unfinished(s.builders[n])
    ensures var s' := C.Attempt(h, s, c);
      && s'.builders.Keys == s.builders.Keys
      && (forall n :: n in s.builders ==>
            && s'.builders[n].status == s.builders[n].status
            && s'.builders[n].spec == s.builders[n].spec.(cancelled :=
                 s.builders[n].spec.cancelled || Unfinished(s.builders[n])))
      && s'.fn.status.build.Some? && s'.fn.status.build.value.state == NoState && s'.fn.status.build.value.ref.None?
      && BuildIsMissing(h, s')
  {
    NeedsAgree(h, s);
    ServingPartLeavesBuild(h, C.BuilderPart(h, s, c));
    NoneIsUnfinished(s.builders);
  }

  /** With nothing to build, that is recorded, and the way is clear for a serving in the same attempt. */
  lemma BuildIsSkipped(h: Hashes, s: Store, c: C.Choice)
    requires s.fn.spec.build.None? && BuildIsMissing(h, s)
    requires forall n :: n in s.builders ==> !Unfinished(s.builders[n])
    ensures var s' := C.Attempt(h, s, c);
      && s'.fn.status.build == Some(Condition(Skipped, "", "", None, None, Some(BuildHash(h, s.fn.spec)), ""))
      && s'.fn.status.serving.Some?
      && (s.fn.spec.serving.Some? && s.next !in s.servings ==>
            && s.next in s'.servings
            && s'.servings[s.next].spec == WantedServing(s.fn, s.fn.spec.serving.value, s.fn.status.revision)
            && s'.fn.status.serving.value.ref == Some(s.next))
  {
    NeedsAgree(h, s);
    HashesAgree(h, s.fn);
    ServingPartLeavesBuild(h, C.BuilderPart(h, s, c));
    NoneIsUnfinished(s.builders);
    var mid := C.BuilderPart(h, s, c);
    NeedsAgree(h, mid);
    assert mid.fn.status.serving == Some(EMPTY_CONDITION);
    assert ServingIsMissing(h, mid);
  }

  /** The recorded builder, if the attempt follows it and it has news. */
  predicate HasNews(h: Hashes, s: Store, n: Name) {
    && !BuildIsMissing(h, s)
    && s.fn.status.build.value.state != NoState && s.fn.status.build.value.ref == Some(n)
    && n in s.builders && s.builders[n].status.phase == BuildPhase
    && var c, b := s.fn.status.build.value, s.builders[n].status;
      c.state != b.state || c.reason != b.reason || c.message != b.message
  }

  lemma NewsIsRecorded(h: Hashes, s: Store, c: C.Choice, n: Name)
    requires HasNews(h, s, n)
    ensures var mid, b := C.BuilderPart(h, s, c), s.builders[n].status;
      && mid.fn.status.build == Some(s.fn.status.build.value.(state := b.state, reason := b.reason, message := b.message))
      && mid.fn.spec == s.fn.spec && mid.servings == s.servings && mid.next == s.next
      && (b.state != Succeeded ==> mid.fn.status.serving == s.fn.status.serving && mid.fn.status.revision == s.fn.status.revision)
      && (b.state == Succeeded ==>
            && mid.fn.status.revision == (if b.output.Some? then b.output else s.fn.status.revision)
            && mid.fn.status.serving.Some? && mid.fn.status.serving.value.state == NoState
            && Last(mid.fn.status) == Last(s.fn.status))
  {
    NeedsAgree(h, s);
  }

  /** Main result on reaching a serving: an attempt that finds its build succeeded creates a serving for it at once. Its
      image carries the digest the builder reported, and the last successful serving stays on record. */
  lemma FinishedBuildIsServed(h: Hashes, s: Store, c: C.Choice, n: Name)
    requires HasNews(h, s, n) && s.builders[n].status.state == Succeeded
    requires s.fn.spec.serving.Some? && s.next !in s.servings
    ensures var s', out := C.Attempt(h, s, c), s.builders[n].status.output;
      && s.next in s'.servings
      && s'.servings[s.next] == Serving(
           WantedServing(s.fn, s.fn.spec.serving.value, if out.Some? then out else s.fn.status.revision),
           ServingStatus(NoPhase, NoState, "", "", ""), 0)
      && s'.fn.status.serving == Some(Condition(Created, "", "", Some(s.next), Last(s.fn.status),
           Some(h.serving(s'.servings[s.next].spec)), ""))
      && s'.fn.status.build.value.state == Succeeded
      && s'.fn.status.build.value.reason == s.builders[n].status.reason
      && s'.fn.status.build.value.message == s.builders[n].status.message
  {
    NewsIsRecorded(h, s, c, n);
    var mid := C.BuilderPart(h, s, c);
    NeedsAgree(h, mid);
    ServingPartLeavesBuild(h, mid);
    assert ServingIsMissing(h, mid);
    ServingIsCreated(h, mid);
  }

  /** A build that ended otherwise is reported, and nothing is served for it. */
  lemma OtherEndIsReported(h: Hashes, s: Store, c: C.Choice, n: Name)
    requires HasNews(h, s, n) && s.builders[n].status.state !in {Succeeded, Skipped}
    ensures var s', b := C.Attempt(h, s, c), s.builders[n].status;
      && s'.fn.status.build == Some(s.fn.status.build.value.(state := b.state, reason := b.reason, message := b.message))
      && s'.fn.status.revision == s.fn.status.revision
      && s'.servings.Keys <= s.servings.Keys
  {
    NewsIsRecorded(h, s, c, n);
    ServingPartLeavesBuild(h, C.BuilderPart(h, s, c));
  }

  // ---------- Serving ----------

  lemma ServingIsCreated(h: Hashes, s: Store)
    requires ServingIsMissing(h, s) && s.fn.spec.serving.Some?
    ensures var s' := C.ServingPart(h, s);
      && s.next in s'.servings && s'.next == s.next + 1
      && s'.servings[s.next] == Serving(WantedServing(s.fn, s.fn.spec.serving.value, s.fn.status.revision),
                                        ServingStatus(NoPhase, NoState, "", "", ""), 0)
      && s'.fn.status.serving == Some(Condition(Created, "", "", Some(s.next), Last(s.fn.status),
                                                Some(ServingHash(h, s.fn)), ""))
      && (forall n :: n in s'.servings && n != s.next ==> n in s.servings && Some(n) == Last(s.fn.status))
      && (forall n :: n in s.servings && n != s.next && Some(n) == Last(s.fn.status) ==>
            n in s'.servings && s'.servings[n] == s.servings[n])
  {
    NeedsAgree(h, s);
    HashesAgree(h, s.fn);
  }

  /** Main result on creating servings: exactly when the serving part creates one, what it looks like, and which
      servings stay: the last successful one alone. */
  lemma WhenServingIsCreated(h: Hashes, s: Store)
    requires s.next !in s.servings
    ensures var s' := C.ServingPart(h, s);
      && (s.next in s'.servings <==> s.fn.spec.serving.Some? && ServingIsMissing(h, s))
      && (s.next in s'.servings ==>
            && s'.servings[s.next].spec == WantedServing(s.fn, s.fn.spec.serving.value, s.fn.status.revision)
            && s'.fn.status.serving == Some(Condition(Created, "", "", Some(s.next), Last(s.fn.status),
                                                      Some(ServingHash(h, s.fn)), ""))
            && forall n :: n in s'.servings && n != s.next <==> n in s.servings && Some(n) == Last(s.fn.status))
  {
    NeedsAgree(h, s);
    if ServingIsMissing(h, s) && s.fn.spec.serving.Some? {
      ServingIsCreated(h, s);
    }
  }

  lemma ServingIsSkipped(h: Hashes, s: Store)
    requires ServingIsMissing(h, s) && s.fn.spec.serving.None?
    ensures var s' := C.ServingPart(h, s);
      && s'.fn.status.serving == Some(Condition(Skipped, "", "", None, None, Some(ServingHash(h, s.fn)), ""))
      && forall n :: n in s'.servings <==> n in s.servings && Some(n) == Last(s.fn.status)
  {
    NeedsAgree(h, s);
    HashesAgree(h, s.fn);
  }

  /** The recorded serving, if the attempt follows it and it has news. */
  predicate ServingHasNews(h: Hashes, s: Store, n: Name) {
    && !ServingIsMissing(h, s)
    && s.fn.status.serving.Some? && s.fn.status.serving.value.state != NoState
    && s.fn.status.serving.value.ref == Some(n)
    && n in s.servings && s.servings[n].status.phase == ServingPhase
    && var c, r := s.fn.status.serving.value, s.servings[n].status;
      c.state != r.state || c.reason != r.reason || c.message != r.message
  }

  /** Main result on following: news of a serving is taken over. One that runs becomes the last successful one, its
      address is published and all other servings are deleted; otherwise all servings stay. */
  lemma ServingIsFollowed(h: Hashes, s: Store, n: Name)
    requires ServingHasNews(h, s, n)
    ensures var s', c, r := C.ServingPart(h, s), s.fn.status.serving.value, s.servings[n].status;
      && s'.fn.status.serving == Some(Condition(r.state, r.reason, r.message, Some(n),
           if r.state == Running then Some(n) else c.last, c.hash,
           if r.state == Running then r.service else c.service))
      && (if r.state == Running then s'.servings == map[n := s.servings[n]] else s'.servings == s.servings)
      && s'.next == s.next
  {
    NeedsAgree(h, s);
  }

  lemma NothingNewIsLeftAlone(h: Hashes, s: Store)
    requires !ServingIsMissing(h, s) && forall n :: !ServingHasNews(h, s, n)
    ensures C.ServingPart(h, s) == s
  {
    NeedsAgree(h, s);
    if s.fn.status.serving.Some? && s.fn.status.serving.value.ref.Some? {
      assert !ServingHasNews(h, s, s.fn.status.serving.value.ref.value);
    }
  }

  // ---------- Over whole runs ----------

  /** A build that is over comes with a record of the serving, if only of one to be made. */
  predicate Served(st: FunctionStatus) {
    st.build.Some? && st.build.value.state in {Succeeded, Skipped} ==> st.serving.Some?
  }

  predicate ServedInv(m: L.Machine) {
    && Served(m.store.fn.status) && (!m.pc.Idle? ==> Served(m.pc.fn.status))
    && forall n :: n in m.store.builders ==> m.store.builders[n].status.state != Skipped
  }

  lemma BuilderCallKeepsServed(h: Hashes, m: L.Machine, a: L.Action)
    requires ServedInv(m)
    ensures ServedInv(L.BuilderCall(h, m, a))
  {
  }

  lemma ServingCallKeepsServed(h: Hashes, m: L.Machine, a: L.Action)
    requires ServedInv(m)
    ensures ServedInv(L.ServingCall(h, m, a))
  {
  }

  /** Main result: in every interleaving, with any call failing, whenever the build on record is over there is a record
      of the serving too - without one no serving would ever be created. */
  lemma {:induction false} FinishedBuildAsksForServing(h: Hashes, spec: FunctionSpec, acts: seq<L.Action>)
    ensures ServedInv(L.Run(h, spec, acts))
    ensures
      var st := L.Run(h, spec, acts).store.fn.status;
      st.build.Some? && (st.build.value.state == Succeeded || st.build.value.state == Skipped) ==> st.serving.Some?
  {
    if acts != [] {
      var m, a := L.Run(h, spec, acts[..|acts| - 1]), acts[|acts| - 1];
      FinishedBuildAsksForServing(h, spec, acts[..|acts| - 1]);
      BuilderCallKeepsServed(h, m, a);
      ServingCallKeepsServed(h, m, a);
    }
  }
}

/** What a single step of the Function controller's machine does when a call fails, is refused or finds nothing: the
    ends that an undisturbed attempt never sees. */
module FailingCalls {
  import opened Api
  import opened FunctionLogic
  import opened Lifecycle

  predicate WritesBuild(pc: Pc) {
    pc.WriteTracked? || pc.WriteReset? || pc.WriteMade?
  }

  predicate WritesServing(pc: Pc) {
    pc.WriteServingTracked? || pc.WriteServingReset? || pc.WriteServingMade?
  }

  /** A status write takes effect exactly if the copy is up to date. It then stores the copy's status and nothing else,
      and the worker goes on with what was stored; otherwise nothing changes and the attempt is over. */
  lemma WritesAreChecked(h: Hashes, m: Machine)
    requires WritesBuild(m.pc) || WritesServing(m.pc)
    ensures var m', f := Next(h, m, Write), m.pc.fn;
      && m'.store.fn.spec == m.store.fn.spec && m'.store.builders == m.store.builders
      && m'.store.servings == m.store.servings && m'.store.next == m.store.next && m'.log == m.log
      && (f.version != m.store.fn.version ==> m'.store == m.store && m'.pc.Idle?)
      && (f.version == m.store.fn.version ==>
            && m'.store.fn.status == f.status
            && m'.store.fn.version == m.store.fn.version + (if f.status == m.store.fn.status then 0 else 1)
            && (m'.pc.Idle? <==> m.pc.WriteServingTracked? || m.pc.WriteServingMade?)
            && (!m'.pc.Idle? ==> m'.pc.fn == m'.store.fn))
  {
  }

  /** A call that fails ends the attempt, and so does a crash; what is stored stays. */
  lemma FailureEndsTheAttempt(h: Hashes, m: Machine)
    ensures Next(h, m, Fail) == m.(pc := Idle)
  {
  }

  /** That the recorded builder cannot be looked up is no reason to build; that it is gone is one, unless it had
      succeeded. */
  lemma LookingForTheBuilder(h: Hashes, m: Machine, available: bool)
    requires m.pc.DecideBuilder?
    ensures var m', f := Next(h, m, LookUp(available)), m.pc.fn;
      && m'.store == m.store && m'.log == m.log
      && (m'.pc.WriteReset? || m'.pc == TrackBuilder(f))
      && (m'.pc.WriteReset? <==>
            || f.status.build.None?
            || f.status.build.value.hash.None?
            || (f.status.build.value.ref.None? && f.spec.build.Some?)
            || f.status.build.value.hash != Some(BuilderHash(h, CreateBuilderSpec(f.spec)))
            || (&& f.spec.build.Some? && f.status.build.value.state != Succeeded && available
                && f.status.build.value.ref.Some? && f.status.build.value.ref.value !in m.store.builders))
      && (m'.pc.WriteReset? ==>
            && m'.pc.fn.spec == f.spec && m'.pc.fn.version == f.version
            && m'.pc.fn.status.serving == f.status.serving && m'.pc.fn.status.revision == f.status.revision
            && m'.pc.fn.status.build.Some?
            && var c := m'.pc.fn.status.build.value;
              && c.state == NoState && c.reason == "" && c.message == "" && c.ref.None?
              && (f.status.build.Some? ==> c.hash == f.status.build.value.hash))
  {
  }

  /** Following a builder: with none to follow, or none there, the worker turns to the serving; if it cannot be looked
      up the attempt is over. */
  lemma FollowingTheBuilder(h: Hashes, m: Machine, available: bool)
    requires m.pc.TrackBuilder?
    ensures var m', f := Next(h, m, LookUp(available)), m.pc.fn;
      && m'.store == m.store && m'.log == m.log
      && (if f.status.build.None? || f.status.build.value.state == NoState || f.status.build.value.ref.None? then
            m'.pc == DecideServing(f)
          else if !available then m'.pc.Idle?
          else if f.status.build.value.ref.value !in m.store.builders
            || m.store.builders[f.status.build.value.ref.value].status.phase != BuildPhase then
            m'.pc == DecideServing(f)
          else
            var b, c := m.store.builders[f.status.build.value.ref.value].status, f.status.build.value;
            if (c.state, c.reason, c.message) == (b.state, b.reason, b.message) then m'.pc == ListToPrune(f, false)
            else m'.pc.WriteTracked?)
  {
  }

  /** That the recorded serving cannot be looked up is no reason to make another; that it is gone is one. */
  lemma LookingForTheServing(h: Hashes, m: Machine, available: bool)
    requires m.pc.DecideServing?
    ensures var m', f := Next(h, m, LookUp(available)), m.pc.fn;
      && m'.store == m.store && m'.log == m.log
      && (m'.pc.WriteServingReset? || m'.pc == TrackServing(f))
      && (m'.pc.WriteServingReset? <==>
            && f.status.serving.Some?
            && (f.status.build.None? || f.status.build.value.state == Succeeded || f.status.build.value.state == Skipped)
            && var c := f.status.serving.value;
              || c.state == NoState || c.hash.None? || (c.ref.None? && f.spec.serving.Some?)
              || c.hash != Some(h.serving(CreateServingSpec(f)))
              || (&& f.spec.serving.Some? && available
                  && c.ref.Some? && c.ref.value !in m.store.servings))
      && (m'.pc.WriteServingReset? ==>
            && m'.pc.fn.spec == f.spec && m'.pc.fn.version == f.version
            && m'.pc.fn.status.build == f.status.build && m'.pc.fn.status.revision == f.status.revision
            && m'.pc.fn.status.serving.Some?
            && var c := m'.pc.fn.status.serving.value;
              && c.state == NoState && c.reason == "" && c.message == "" && c.ref.None? && c.hash.None?
              && c.last == f.status.serving.value.last)
  {
  }

  /** Following a serving: the attempt is over unless there is one with news. */
  lemma FollowingTheServing(h: Hashes, m: Machine, available: bool)
    requires m.pc.TrackServing?
    ensures var m', f := Next(h, m, LookUp(available)), m.pc.fn;
      && m'.store == m.store
      && (m'.pc.Idle? <==>
            || f.status.serving.None? || f.status.serving.value.state == NoState || f.status.serving.value.ref.None?
            || !available || f.status.serving.value.ref.value !in m.store.servings
            || var c, s := f.status.serving.value, m.store.servings[f.status.serving.value.ref.value].status;
              s.phase != ServingPhase || (c.state, c.reason, c.message) == (s.state, s.reason, s.message))
      && (!m'.pc.Idle? ==>
            var n := f.status.serving.value.ref.value;
            if m.store.servings[n].status.state == Running
            then m'.pc.ListServings? && !m'.pc.making && m'.log == m.log.(ran := m.log.ran + {n})
            else m'.pc.WriteServingTracked? && m'.log == m.log)
  {
  }

  /** Cancelling goes by versions: a builder that has changed or gone since it was listed ends the attempt; any other is
      marked, and its status stays. */
  lemma CancellingIsChecked(h: Hashes, m: Machine, n: Name)
    requires m.pc.Cancel? && n in m.pc.todo
    ensures var m' := Next(h, m, Touch(n));
      if n !in m.store.builders || m.store.builders[n].version != m.pc.todo[n] then m' == m.(pc := Idle)
      else
        && m'.store.builders.Keys == m.store.builders.Keys
        && m'.store.builders[n] == m.store.builders[n].(
             spec := m.store.builders[n].spec.(cancelled := true),
             version := m.store.builders[n].version + (if m.store.builders[n].spec.cancelled then 0 else 1))
        && (forall k :: k in m.store.builders && k != n ==> m'.store.builders[k] == m.store.builders[k])
        && m'.store.fn == m.store.fn && m'.store.servings == m.store.servings
        && m'.pc.Cancel? && m'.pc.waiting && m'.pc.fn == m.pc.fn && m'.pc.todo == m.pc.todo - {n}
  {
  }

  /** Only if none had to be asked to stop does the worker go on to prune and build. */
  lemma CancellingEnds(h: Hashes, m: Machine)
    requires m.pc.Cancel? && m.pc.todo == map[]
    ensures Next(h, m, Finish).store == m.store
    ensures Next(h, m, Finish).pc == if m.pc.waiting then DecideServing(m.pc.fn) else ListToPrune(m.pc.fn, true)
  {
  }
}

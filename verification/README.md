# OpenFunction controllers: a verified model

OpenFunction is a Kubernetes operator for functions. From a Function object it creates Builders, which build an
image, and Servings, which run it; it merges the listeners of its own Gateway objects into Kubernetes Gateways that
others use as well; it creates and cleans up the objects behind a build or a serving; and it converts Functions
between two API versions. Its hard part is a small distributed protocol: several controllers and timer goroutines
share a versioned object store, any call to the API server can fail, and work is repeated from the top.

This project models that protocol and proves properties of it with Dafny 4.11. `dafny verify dfyconfig.toml` checks
everything.

## How it is modelled

- **API server.** Maps from names to objects with a version per object; a write from a copy succeeds only if the
  copy's version is the stored one, and the version moves only if the write changes something. Generated names come
  from a counter (`Api.dfy`) or from a random suffix (`Cluster.dfy`). `util.Hash` is an arbitrary function.
- **Step machines** (`Lifecycle`, `BuilderController`, `JointMachine`, `ServingController`, `GatewayHistory`). One step is one API
  call, one timer event, one action of a user or another controller, or the failure of a call. `Next`/`Step` is total,
  so every sequence of actions is a run, and lemmas about all sequences are lemmas about all interleavings.
- **Code as written** (`FunctionController`, `BuilderReconciler`, `ServingReconciler`, `GatewayMerge`, `ServingRun`,
  `BuilderRun`, `ComponentNames`, `Tracing`, `Conversion`). Classes and methods with the loops and updates of the
  source, proved against functions of the old state; `Undisturbed`, `BuilderReconciler` and `ServingReconciler` show
  that what the methods compute is a run of the step machines.

| file | contents |
|---|---|
| `Api.dfy`, `FunctionLogic.dfy` | the custom resources; the decisions and status changes of the Function controller |
| `BuilderHistory.dfy` | which builders survive pruning, against an order-free definition |
| `Lifecycle.dfy`, `Rollout.dfy`, `NoGap.dfy` | the Function controller call by call: one build at a time; two servings, each from the right build; no gap |
| `BuildCount.dfy`, `RepeatedBuild.dfy`, `HandoverGap.dfy` | how many builders a function ever gets; the runs that show where the count and the handover fail |
| `FunctionController.dfy`, `Undisturbed.dfy` | the Function controller as written, and as a run of the step machine |
| `AttemptOutcome.dfy`, `FailingCalls.dfy` | what an attempt brings about, in terms of specification and status alone; what a call that fails or is refused does |
| `Quiescence.dfy`, `RebuildBound.dfy` | coming to rest; how many builders undisturbed attempts make |
| `BuilderController.dfy`, `BuilderReconciler.dfy` | the Builder controller with its timer goroutines |
| `JointMachine.dfy`, `JointResults.dfy` | the Function controller together with the Builder controllers of all its builders |
| `ServingController.dfy`, `ServingReconciler.dfy` | the Serving controller with its timer goroutine |
| `GatewayMerge.dfy`, `GatewayHistory.dfy` | the listener merge, its shortcut, and ownership over histories |
| `Cluster.dfy`, `ServingRun.dfy`, `BuilderRun.dfy` | clean-then-create under failing calls and lost answers |
| `ComponentNames.dfy` | generated component names, joined and resolved |
| `Tracing.dfy` | the in-place merge of tracing configurations |
| `Conversion.dfy` | conversion of the serving part between v1beta1 and v1beta2 |

Assumptions shared by the lifecycle results: one worker per object, lists see the latest store, status writes leave the
specification alone and the other way round, nobody else creates builders or servings with the function's label.

## What turned out not to hold

- **A finished build can be lost.** An attempt reads the builder's state (function_controller.go:254) and later
  lists builders to prune (function_controller.go:334). A build that ends in between, in a class for which the history
  limits leave no place, is deleted before its outcome is recorded, and is then repeated. With a place for a failed and
  for a successful build that cannot happen, however calls interleave or fail, and without them there always is such a
  run from the function's first appearance: `RepeatedBuild.WhenBuildersAreCounted`, `BuildIsRepeated`.
- **A rollout can leave a gap.** The old serving is deleted before the status that records the new one is written
  (function_controller.go:525, 532). If a call fails from that deletion on, or that write is refused, the record names a
  serving that is gone (`HandoverGap.FailedHandoverLeavesGap`). All other failures and conflicts are harmless:
  `NoGap.WhenHandoverLeavesNoGap` gives the exact condition at every point of a handover, `NoGap.RolloutLeavesNoGap` the
  consequence for whole runs.
- **A cancelled builder may be built all the same.** Cancelling asks Shipwright to stop the recorded BuildRun
  (builderrun.go:276-279) and nothing else; the attempt then goes on (builder_controller.go:94-147). A builder marked
  before its first attempt has no record, so its build is started and stopped by a later attempt only:
  `BuilderReconciler.WhenCancelledBuildGoesOn`, `CancelledTooEarlyIsBuilt`, `NextAttemptStopsIt`.
- **A serving's timeout is not final at the instant of its deadline.** The check is strict (serving_controller.go:108),
  the timer may fire at equality (serving_controller.go:278), and an attempt at that instant replaces the timeout, or
  forgets it if the serving has no phase yet (`ServingController.TimeoutAtTheDeadlineIsNotFinal`,
  `TimeoutAtTheDeadlineIsForgotten`); `WhenTimeoutIsReplaced` says exactly when.
- **An edit after an unrecorded merge leaks listeners** if it drops a name that only that merge has brought in, or moves
  to another gateway (`GatewayHistory.InterruptedMergeLeaksListener`); `WhenEditAfterMergeIsHarmless` is the exact
  condition. Deletion removes the listeners of the current specification, not of the one applied last;
  `GatewayHistory.DeletionGivesBack` says exactly when that gives the gateways back.
- **A Gateway object without annotations makes the attempt panic** after it has merged, because the annotation is
  assigned into a nil map (gateway_controller.go:384; `GatewayMerge.GatewayReconciler.UpdateGatewayAnnotations`). The
  default installation does not get there: its mutating webhook adds annotations on every create and update
  (gateway_webhook.go:97-104). It takes an operator started with `ENABLE_WEBHOOKS=false` (main.go:185).
- **The "need to reconcile" guard stays on** after a merge in one case: the annotation does not parse and the
  specification is the zero value, for then the annotation is not written (`GatewayMerge.GuardIsOffAfterMerge`).
- **Cut names.** All components resolve to their own objects exactly if the server cuts no generated name's base
  (`ComponentNames.WhenAllAreFound`); a cut one may be taken for another (`CutNameIsMistaken`). If the server has to cut
  the owner's own name, the object is not cleaned up (`Cluster.WhenSwept`).
- **User labels win over tracking labels**, so labels can hide a workload or a proxy from cleaning up. Repeated attempts
  then double it: `ServingRun.FindableWhen`, `WhenRepeatingDoublesNothing`.
- **A scaled job without a scaled object panics** in the conversion, which takes the job's polling interval from the
  scaled object (function_conversion.go:258). The type's documentation suggests no such dependence.

Other behaviour kept as it is: the number of builders also grows with edits that add or remove the build altogether,
even if the hash stays; a recorded digest stays when a later build reports none or is skipped; a serving marked as
timed out before it had a phase is never copied to its function, which only looks at servings with a phase.

## Model

| member | source | states |
|---|---|---|
| FunctionLogic.Repo | controllers/core/function_controller.go:587-600 | the repository part of an image is its longest prefix without an `@` |
| BuilderHistory.SurvivorsAreLegal | controllers/core/function_controller.go:329-379 | for every listing order the survivors are a legal pruning: all unfinished builders, of each class as many as the limit allows, none of them older than one given up |
| BuilderHistory.NewestFirstIsSorted | controllers/core/function_controller.go:338-340 | the stable sort puts newer builders first and leaves ties in listing order |
| BuilderHistory.SurvivesByRank | controllers/core/function_controller.go:354-376 | a finished builder survives exactly if fewer builders of its class precede it in the sorted list than the limit allows |
| BuilderHistory.SecondPruneKeepsAll | controllers/core/function_controller.go:329-379 | pruning again with the same limits, on a list in any order, removes nothing |
| BuilderHistory.NewestSurvives | controllers/core/function_controller.go:342-372 | with a place for its class, the strictly newest builder survives every legal pruning |
| BuilderHistory.WhenTheNewestMayGo | controllers/core/function_controller.go:342-372 | pruning may give up the strictly newest builder exactly if it has finished and there is no place for its class |
| BuilderHistory.WhatIsKept | controllers/core/function_controller.go:329-379 | in terms of the specification: all unfinished builders stay, of the succeeded ones as many as the successful limit says or none without one, of the others as many as the failed limit says or one without one, and of each the newest |
| Lifecycle.SingleBuild | controllers/core/function_controller.go:145-233 | in every interleaving, with any call failing, at most one builder of a function is unfinished |
| Lifecycle.NextKeepsBuildInv | controllers/core/function_controller.go:173-218 | every step keeps: at most one unfinished builder, and none once cancellation has found none |
| Rollout.AtMostTwoServings | controllers/core/function_controller.go:395-482 | in every interleaving a function has at most two servings, and at most the last successful one when another is created |
| Rollout.RecordsHold | controllers/core/function_controller.go:145-298 | in every run the recorded build is true of the builder it names, in the store and in the worker's copy |
| Rollout.ServingMatchesItsBuild | controllers/core/function_controller.go:441-474 | every serving is created from a copy whose build is over and hashes to the current build specification; a digest reported by exactly that builder is the digest of its image |
| Rollout.BuilderMatchesItsFunction | controllers/core/function_controller.go:203-218 | every builder is created, while no other is unfinished, for exactly the build, image and credentials of the worker's copy |
| NoGap.StatusIsInSync | controllers/core/function_controller.go:409-426 | in every run the worker's copy of the status differs from the stored one only by what it is about to write |
| NoGap.LastIsForgottenOnlyBySkipping | controllers/core/function_controller.go:187-200 | in every run the last successful serving is forgotten only when the build or the serving is skipped |
| NoGap.LastIsNeverForgotten | controllers/core/function_controller.go:187-200 | in every run, failures included, whose edits switch neither building nor serving on or off, a last successful serving once recorded is on record ever after |
| NoGap.RecordNamesServing | controllers/core/function_controller.go:512-535 | if no handover breaks off with its predecessor gone and nobody else deletes the servings on record, a serving on record exists and has run, whatever is edited |
| NoGap.RolloutLeavesNoGap | controllers/core/function_controller.go:512-535 | if moreover no edit switches building or serving on or off, once a serving is on record there is one that exists and has run at every later moment, through failing calls, refused writes and broken-off handovers |
| NoGap.RunningIsNeverLost | controllers/core/function_controller.go:519-526 | the same from the moment a serving is first seen running, if the very first handover does not break off |
| NoGap.WhenHandoverLeavesNoGap | controllers/core/function_controller.go:512-535 | in every run without a gap so far, wherever a handover breaks off or ends, the record names an existing serving exactly if the status write was accepted or the predecessor is still there |
| HandoverGap.FailedHandoverLeavesGap | controllers/core/function_controller.go:521-535 | two runs from a function's first appearance in which a call fails after the predecessor was deleted, and the record names it |
| FunctionController.FunctionReconciler.UpdateStatus | controllers/core/function_controller.go:167-170 | a status write stores the status and nothing else, and yields the stored object |
| FunctionController.FunctionReconciler.CancelOldBuilders | controllers/core/function_controller.go:301-327 | marks exactly the unfinished builders as cancelled and says whether there were any |
| FunctionController.FunctionReconciler.PruneBuilders | controllers/core/function_controller.go:329-379 | deletes exactly the builders that are not survivors for the order in which they were listed |
| FunctionController.FunctionReconciler.Count | controllers/core/function_controller.go:356-370 | counts one builder in its class and keeps it exactly if there was room |
| FunctionController.FunctionReconciler.StartBuild | controllers/core/function_controller.go:158-185 | resets the build, cancels what runs, and only if nothing ran prunes and goes on |
| FunctionController.FunctionReconciler.MakeBuilder | controllers/core/function_controller.go:187-232 | records a skipped build, or creates a builder and records its name and hash |
| FunctionController.FunctionReconciler.FollowBuild | controllers/core/function_controller.go:236-298 | takes over a changed outcome, clears the way for a serving on success, and prunes; what that amounts to is in `AttemptOutcome.NewsIsRecorded` and `FinishedBuildIsServed` |
| FunctionController.FunctionReconciler.CreateBuilder | controllers/core/function_controller.go:145-233 | the builder part of an attempt computes `BuilderPart` |
| FunctionController.FunctionReconciler.CleanServing | controllers/core/function_controller.go:544-570 | deletes exactly the servings that are neither current nor last successful |
| FunctionController.FunctionReconciler.CreateServing | controllers/core/function_controller.go:395-482 | the serving part of an attempt computes `ServingPart` |
| FunctionController.FunctionReconciler.FollowServed | controllers/core/function_controller.go:485-541 | takes over a changed outcome, and on success makes the serving the last successful one and cleans up |
| FunctionController.FunctionReconciler.Reconcile | controllers/core/function_controller.go:110-137 | a whole undisturbed attempt takes the store to `Attempt`, for a legal choice of surviving builders |
| AttemptOutcome.WhenBuilderIsCreated | controllers/core/function_controller.go:173-232 | an attempt creates a builder exactly if there is something to build, nothing is being built, and the record is missing, of another hash, or of a builder that has gone before it succeeded; what the builder and its record look like, and that pruned builders go |
| AttemptOutcome.RunningBuildIsCancelled | controllers/core/function_controller.go:173-181 | while another build runs it is asked to stop, no builder is created or deleted, and the record left makes the next attempt try again |
| AttemptOutcome.BuildIsSkipped | controllers/core/function_controller.go:187-200 | with nothing to build that is recorded, and a serving with the plain image is created in the same attempt |
| AttemptOutcome.NewsIsRecorded | controllers/core/function_controller.go:261-290 | news of the recorded builder is taken over; success, and nothing else, records the digest and calls for a serving, without forgetting the last successful one |
| AttemptOutcome.FinishedBuildIsServed | controllers/core/function_controller.go:254-297 | an attempt that finds its build succeeded creates a serving at once: version, image with the reported digest, credentials and implementation, recorded by name and hash, the last successful one still on record |
| AttemptOutcome.OtherEndIsReported | controllers/core/function_controller.go:254-297 | a build that ended otherwise is reported, and no serving is created for it |
| AttemptOutcome.WhenServingIsCreated | controllers/core/function_controller.go:650-693 | the serving part creates a serving exactly if one is specified, the build is over or there is none, and the record is new, of another hash, or of a serving that is gone; what it looks like, and that of the others only the last successful one stays |
| AttemptOutcome.ServingIsSkipped | controllers/core/function_controller.go:409-439 | without a serving specified that is recorded, and of the servings only the last successful one stays |
| AttemptOutcome.ServingIsFollowed | controllers/core/function_controller.go:485-541 | news of the serving is taken over; once it runs it is the last successful one, its address is published and all others are deleted; otherwise all stay |
| AttemptOutcome.NothingNewIsLeftAlone | controllers/core/function_controller.go:485-541 | without need or news the serving part changes nothing |
| AttemptOutcome.FinishedBuildAsksForServing | controllers/core/function_controller.go:280-286 | in every interleaving, with any call failing, whenever the stored build is succeeded or skipped there is a record of the serving |
| FailingCalls.WritesAreChecked | controllers/core/function_controller.go:167-170 | a status write takes effect exactly if the copy is up to date; otherwise nothing changes and the attempt is over |
| FailingCalls.LookingForTheBuilder | controllers/core/function_controller.go:602-637 | that the recorded builder cannot be looked up is no reason to build; that it is gone is one, unless it had succeeded |
| FailingCalls.FollowingTheBuilder | controllers/core/function_controller.go:236-262 | a builder that cannot be looked up ends the attempt; one that is gone or has not begun leaves it to the serving part |
| FailingCalls.LookingForTheServing | controllers/core/function_controller.go:650-693 | that the recorded serving cannot be looked up is no reason to make another; that it is gone is one |
| FailingCalls.FollowingTheServing | controllers/core/function_controller.go:485-521 | the attempt is over unless there is a serving with news, and only a running one starts the handover |
| FailingCalls.CancellingIsChecked | controllers/core/function_controller.go:301-327 | a builder that changed or went since it was listed ends the attempt; any other is marked and keeps its status |
| FailingCalls.CancellingEnds | controllers/core/function_controller.go:173-185 | only if nothing had to be asked to stop does the attempt go on to prune and build |
| Undisturbed.MachineComputesAttempt | controllers/core/function_controller.go:110-137 | the step machine, left alone, comes to rest in exactly the store that `Attempt` computes |
| Quiescence.ThirdAttemptIsIdle | controllers/core/function_controller.go:145-298 | from every state, with no failures and nobody else acting, a third attempt changes nothing |
| Quiescence.TwoAttemptsComeToRest | controllers/core/function_controller.go:395-541 | after two attempts both parts are at rest: nothing to create, record, prune or cancel |
| Quiescence.FollowComesToRest | controllers/core/function_controller.go:602-637 | following a builder comes to rest at once unless it makes a new builder necessary |
| Quiescence.RedeployComesToRest | controllers/core/function_controller.go:409-482 | after a serving was created or skipped none is needed and there is nothing to follow |
| RebuildBound.BuildersAreBounded | controllers/core/function_controller.go:602-648 | for attempts that are not interleaved with anything, a place for a failed build is enough, even with none for a successful one: never more builders than one plus the edits that concern the build |
| RebuildBound.WhenFollowingLosesTheBuilder | controllers/core/function_controller.go:254-297 | an undisturbed attempt that finds its builder in order leaves it missing exactly if the builder ended without success and pruning gave it up |
| RebuildBound.AttemptCreates | controllers/core/function_controller.go:145-233 | an attempt creates at most one builder, only if one is needed, and then none is needed any more |
| BuildCount.BuildersAreCounted | controllers/core/function_controller.go:145-298 | in every interleaving, calls failing anywhere, with room for both classes and growing creation times: never more builders than one plus the edits that concern the build, the builders others delete, and the new builders whose name was lost |
| RepeatedBuild.BuildIsRepeated | controllers/core/function_controller.go:254-297 | for every specification without a place for a class: a run from the first appearance, without failures, edits or outside deletions, that builds the same twice |
| RepeatedBuild.WhenBuildersAreCounted | controllers/core/function_controller.go:329-379 | that count holds of all runs without edits exactly if both history limits leave at least one place |
| BuilderController.StatusOnlyMovesOn | controllers/core/builder_controller.go:101-154 | in every interleaving of attempts and timers, every Get answered from a cache as old as you like, a builder's status only moves from none to building to finished, and a finished status is final |
| BuilderController.DeadlineIsGuarded | controllers/core/builder_controller.go:208-256 | an unfinished builder under watch always has a timer on record that is armed or has fired, or whose goroutine is writing or about to retry |
| BuilderController.WatchBeginsAndLasts | controllers/core/builder_controller.go:212-227 | an attempt that reaches its timer before the deadline begins the watch, and only a restart ends it |
| BuilderController.DelaysGrowUpToFiveMinutes | controllers/core/builder_controller.go:240-246 | retry delays never decrease and never exceed 300 seconds |
| BuilderController.TotalDelayIs | controllers/core/builder_controller.go:240-246 | n retries wait 2^n - 1 seconds for n up to 9, then 511 + 300(n - 9) |
| BuilderController.GoroutineKeepsPace | controllers/core/builder_controller.go:231-256 | a goroutine that has retried n times writes no earlier than the deadline plus all n delays |
| BuilderController.TimersAreDueAtTheDeadline | controllers/core/builder_controller.go:208-229 | in every run a timer that was never reset is due exactly at the creation time plus the timeout |
| BuilderController.FirstTickComesAtTheDeadline | controllers/core/builder_controller.go:208-236 | for an unfinished builder under watch whose timer on record still waits for its first tick, the tick is possible exactly from the deadline on |
| BuilderController.RetryComesAfterTheDelay | controllers/core/builder_controller.go:240-246 | the retry after n earlier ones is due in 2^n seconds, or 300 from the tenth on, and changes nothing else |
| BuilderController.WritesAreChecked | controllers/core/builder_controller.go:101-154 | a copy is written back exactly if it is up to date, and what each write stores; otherwise nothing changes and the attempt is over |
| BuilderController.ReadingDecides | controllers/core/builder_controller.go:78-154 | a finished builder ends the attempt, one past its deadline is timed out, any other comes to its timer and then to its result or its start |
| BuilderController.GoroutineReadsAndWrites | controllers/core/builder_controller.go:257-281 | a goroutine writes a timeout only over an unfinished builder of unchanged version; whatever fails is retried |
| JointMachine.JointRunIsARun | controllers/core/builder_controller.go:101-154 | the function's side of every joint run, its own actions together with the moves of its builders, is a run of its own machine: the steps of a builder's controller are the moves assumed there |
| JointMachine.EachPartIsARun | controllers/core/function_controller.go:301-379 | each builder's part of a joint run is a run of the Builder controller's machine, in which the worker's cancelling and pruning are specification changes and deletions |
| JointMachine.SingleBuild | controllers/core/function_controller.go:145-233 | in every interleaving of all controllers and goroutines at most one builder is unfinished |
| JointMachine.FinishedBuilderIsFrozen | controllers/core/builder_controller.go:101-104 | no step of any controller or goroutine changes a finished builder's status |
| JointMachine.OutcomeIsFinal | controllers/core/builder_controller.go:257-281 | what a succeeded builder reported is never revised, a goroutine's timeout included |
| JointResults.BuildersAreCounted | controllers/core/function_controller.go:145-298 | the count of builders by their causes, in every interleaving of all controllers and goroutines, any call failing |
| JointResults.RolloutLeavesNoGap | controllers/core/function_controller.go:512-535 | the absence of gaps, in the same interleavings |
| JointResults.TimersFollowTheBuild | controllers/core/builder_controller.go:208-229 | in every joint run a builder's timer that was never reset is due when the timeout of its own build has passed since its own creation |
| BuilderReconciler.Reconciler.Reconcile | controllers/core/builder_controller.go:78-161 | a whole attempt: what becomes of the stored builder, the timers, the table of timers, and the BuildRuns in every case, and that an attempt which cannot pass on a cancellation does nothing else |
| BuilderReconciler.Reconciler.Cancel | pkg/core/builder/shipwright/builderrun.go:271-300 | the recorded BuildRun is told to stop and no other; without a record it succeeds and stops nothing; fails exactly if there is a record and a call for it fails |
| BuilderReconciler.WhenCancelledBuildGoesOn | controllers/core/builder_controller.go:94-147 | after an attempt for a cancelled builder a build goes on exactly if the builder is neither finished nor late and has no phase or no state, or a run was going on that was not on record |
| BuilderReconciler.CancelledTooEarlyIsBuilt | controllers/core/builder_controller.go:94-147 | every builder marked as cancelled before its first attempt is built by that attempt |
| BuilderReconciler.NextAttemptStopsIt | controllers/core/builder_controller.go:94-131 | after two successful attempts for a cancelled builder, whatever happens to its status in between, no build of it goes on |
| BuilderReconciler.Reconciler.StartTimer | controllers/core/builder_controller.go:208-229 | arms a timer that is due at the creation time plus the timeout, unless there is no timeout, it is too late, or one is on record |
| BuilderReconciler.Reconciler.StopTimer | controllers/core/builder_controller.go:283-291 | stops and forgets the timer on record |
| BuilderReconciler.Reconciler.GetBuilderResult | controllers/core/builder_controller.go:169-206 | records a result and stops the timer; without a result nothing changes |
| BuilderReconciler.Reconciler.WaitBuildTimeout | controllers/core/builder_controller.go:231-256 | a tick leads to a timed-out builder and a stopped timer, or to a retry with a longer delay |
| BuilderReconciler.Reconciler.BuildTimeout | controllers/core/builder_controller.go:257-281 | marks an existing unfinished builder as timed out, and reports failure exactly if a call failed |
| BuilderReconciler.AttemptIsARun | controllers/core/builder_controller.go:78-161 | what an attempt computes is reached by the worker's own steps of the machine |
| BuilderReconciler.RoundIsARun | controllers/core/builder_controller.go:231-281 | what a goroutine does with a tick is reached by its own steps of the machine |
| BuilderReconciler.WhatALateAttemptBringsAbout | controllers/core/builder_controller.go:101-119 | a finished builder is left alone; an unfinished one past its deadline times out |
| BuilderReconciler.WhatAnAttemptBringsAbout | controllers/core/builder_controller.go:121-206 | an attempt before the deadline leaves either a build under way and the timer armed for the deadline, or the reported result and the timer stopped |
| BuilderReconciler.WhatDeletionBringsAbout | controllers/core/builder_controller.go:83-92 | for a builder that is gone the timer on record is stopped, and that is all |
| BuilderReconciler.WhatATickBringsAbout | controllers/core/builder_controller.go:231-281 | after a tick an unfinished builder is timed out and the timer stopped; if a call fails the timer is set anew with the next delay |
| ServingController.StateOnlyMovesOn | controllers/core/serving_controller.go:107-207 | if ticks come after the deadline, in every interleaving, every Get answered from a cache as old as you like, a timeout is final, a serving that ran, failed or timed out is never starting again, and only a late serving times out |
| ServingController.TimeoutAtTheDeadlineIsNotFinal | controllers/core/serving_controller.go:263-311 | for every serving with a timeout, a run from its creation in which a tick at the deadline times it out and an attempt at that instant replaces the timeout by any result |
| ServingController.TimeoutAtTheDeadlineIsForgotten | controllers/core/serving_controller.go:107-133 | for every serving with a timeout, a run in which the attempt that armed the timer failed, and the next one, at the deadline, resets the recorded timeout to no state |
| ServingController.WhenTimeoutIsReplaced | controllers/core/serving_controller.go:107-133 | an undisturbed attempt replaces a recorded timeout exactly if it has read the current object, the deadline is not yet exceeded, and the serving has no phase or its workload a result |
| ServingController.TimersAreDueAtTheDeadline | controllers/core/serving_controller.go:263-280 | in every run, whenever ticks come, an armed timer is due exactly at the creation time plus the timeout |
| ServingController.WritesAreChecked | controllers/core/serving_controller.go:107-207 | a copy is written back exactly if it is up to date, and what each write stores; otherwise nothing changes and the attempt is over |
| ServingController.ReadingDecides | controllers/core/serving_controller.go:107-133 | past the deadline a starting serving times out and any other is left alone; before it comes the timer, then the result or the launch, for which the clock is read again |
| ServingController.GoroutineTriesOnce | controllers/core/serving_controller.go:281-308 | a goroutine tries once, and writes a timeout only over a starting serving of unchanged version |
| ServingReconciler.Reconciler.Reconcile | controllers/core/serving_controller.go:90-207 | an undisturbed attempt: what becomes of the stored serving, the timers and the table of timers in every case |
| ServingReconciler.Reconciler.GetServingResult | controllers/core/serving_controller.go:229-261 | records a result that is news and stops the timer; otherwise nothing changes |
| ServingReconciler.Reconciler.StartTimer | controllers/core/serving_controller.go:263-280 | arms a timer for a starting serving unless there is no timeout, it is too late, or one is on record |
| ServingReconciler.Reconciler.StopTimer | controllers/core/serving_controller.go:313-321 | stops and forgets the timer on record |
| ServingReconciler.Reconciler.HandleTick | controllers/core/serving_controller.go:281-308 | a tick times out a serving that is still starting, tries that once, and stops the timer on record |
| ServingReconciler.AttemptIsARun | controllers/core/serving_controller.go:90-207 | what an attempt computes is reached by the worker's own steps of the machine |
| ServingReconciler.RoundIsARun | controllers/core/serving_controller.go:281-308 | what the goroutine does with a tick is reached by its own steps of the machine |
| ServingReconciler.WhatALateAttemptBringsAbout | controllers/core/serving_controller.go:107-121 | past the deadline a starting serving times out and any other is left alone |
| ServingReconciler.WhatAnAttemptBringsAbout | controllers/core/serving_controller.go:122-261 | an attempt before the deadline launches the serving, or times it out if the deadline passes just then; a reported result is taken over if it is news, and then the timer is stopped |
| ServingReconciler.WhatDeletionBringsAbout | controllers/core/serving_controller.go:95-105 | for a serving that is gone the timer on record is stopped, and that is all |
| ServingReconciler.WhatATickBringsAbout | controllers/core/serving_controller.go:281-321 | a tick times out a serving that is still starting, if the calls succeed; the timer on record is stopped and the goroutine ends in any case |
| GatewayMerge.ListToMapping | pkg/networking/gateway/generic.go:21-27 | of listeners with the same name the last one counts |
| GatewayMerge.MappingToList | pkg/networking/gateway/generic.go:29-35 | whatever the iteration order, the list maps back to the mapping and has no duplicates |
| GatewayMerge.GatewayReconciler.ReconcileK8sGateway | controllers/networking/gateway_controller.go:244-288 | the live listeners become the three-way merge; the injected annotation holds the wanted ones |
| GatewayMerge.GatewayReconciler.NeedReconcileK8sGateway | controllers/networking/gateway_controller.go:352-370 | the guard is on exactly if a wanted listener is missing or different, or the annotation does not parse or lists other listeners |
| GatewayMerge.GatewayReconciler.CleanK8sGatewayResources | controllers/networking/gateway_controller.go:309-350 | removes the listeners of a specification from its gateway, deletes the gateway it defined, touches no other |
| GatewayMerge.GatewayReconciler.CleanExternalResources | controllers/networking/gateway_controller.go:290-307 | cleans up after the last applied specification exactly if it referred to or defined another gateway |
| GatewayMerge.GatewayReconciler.CreateOrUpdateGateway | controllers/networking/gateway_controller.go:136-202 | with its shortcut taken or not, the outcome is that of always merging; fails exactly if the gateway referred to is missing |
| GatewayMerge.GatewayReconciler.UpdateGatewayAnnotations | controllers/networking/gateway_controller.go:372-391 | the annotation decodes to the specification, unless it was not written because the zero value equals it; panics exactly if it would write to an object without annotations |
| GatewayMerge.GatewayReconciler.Reconcile | controllers/networking/gateway_controller.go:83-134 | a whole attempt: finalizer, cleaning, merging, annotation, and what is left when it fails, panics or the object is being deleted |
| GatewayMerge.GuardSkipsOnlyIdleMerges | controllers/networking/gateway_controller.go:352-370 | when the guard is off, merging would change nothing |
| GatewayMerge.GuardIsOffAfterMerge | controllers/networking/gateway_controller.go:258-271 | after a merge, written as a list in any order, and the annotation update, the guard is off in all but one case |
| GatewayMerge.WhatIsApplied | controllers/networking/gateway_controller.go:136-288 | listener by listener: in the gateways meant, wanted listeners are as wanted, those applied last and not wanted are gone, others stay; a gateway that is defined and missing is created with the wanted ones; no other gateway is touched |
| GatewayMerge.WhatIsCleaned | controllers/networking/gateway_controller.go:309-350 | the listeners named are taken out of the gateway referred to, the gateway defined is deleted, no other is touched; nothing happens if the one referred to is missing |
| GatewayMerge.WhenItIsCleaned | controllers/networking/gateway_controller.go:290-307 | what was applied last is cleaned up exactly if it was applied elsewhere |
| GatewayHistory.ListenersAreOwned | controllers/networking/gateway_controller.go:97-131 | over every history, attempts stopping at any call and edits harmless after an unrecorded merge, foreign listeners are intact at every moment, and after a complete attempt each gateway holds exactly them plus, in the one referred to, the wanted ones |
| GatewayHistory.WhenAttemptIsIdeal | controllers/networking/gateway_controller.go:97-131 | a complete attempt leaves every gateway as it should be exactly if all own listeners around are named by the specification or the one applied last, for that gateway |
| GatewayHistory.WhenEditAfterMergeIsHarmless | controllers/networking/gateway_controller.go:119-129 | after an unrecorded merge and an edit, a complete attempt leaves every gateway as it should be exactly if what was merged is named by the new specification or the one applied last, for the same gateway |
| GatewayHistory.Attempt | controllers/networking/gateway_controller.go:119-129 | the controller's own attempt is a complete attempt of a history, or stops at a missing gateway |
| GatewayHistory.DeletionGivesBack | controllers/networking/gateway_controller.go:106-117 | deletion, possibly after an unreconciled edit, restores the foreign listeners exactly under the stated condition on the two specifications |
| GatewayHistory.MergeIsExact | controllers/networking/gateway_controller.go:258-267 | merging leaves foreign plus wanted exactly if every own live listener was applied last or is wanted |
| GatewayHistory.InterruptedMergeLeaksListener | controllers/networking/gateway_controller.go:119-129 | a history in which an unrecorded merge followed by an edit leaves a listener nobody asks for |
| ComponentNames.ServingComponents.CreateComponents | pkg/core/serving/common/common.go:88-150 | creates one object per component in some order and records their names joined by commas, or stops at the failing call and records nothing |
| ComponentNames.ServingComponents.CollectComponents | pkg/core/serving/common/common.go:97-110 | the components are all bindings and pubsubs and the states with a description, under qualified names |
| ComponentNames.ServingComponents.GetRealComponentName | pkg/core/serving/common/common.go:486-499 | the last recorded name that matches, or the component's own |
| ComponentNames.GetComponentTypePrefix | pkg/core/serving/common/common.go:501-508 | the part before the first dot: it has no dot and, with one behind it, begins the type; nothing for a type without a dot |
| ComponentNames.PrefixOfDotted | pkg/core/serving/common/common.go:501-508 | whatever follows, the prefix of a type is what stands before its first dot |
| ComponentNames.ComponentIsResolved | pkg/core/serving/common/common.go:486-508 | a component of type bindings.x, pubsub.x or state.x, whatever x is, resolves to the object created for it, spelled out, and to its own name if there is none |
| ComponentNames.LastMatchCounts | pkg/core/serving/common/common.go:486-499 | of several recorded names that match the last one counts |
| ComponentNames.ServingComponents.WhichComponents | pkg/core/serving/common/common.go:97-110 | in words: every binding, every pubsub, and every state with a description, each under its kind |
| ComponentNames.NameRoundTrip | pkg/core/serving/common/common.go:97-147 | for every set of components and creation order, resolving yields exactly the object made for the component, and its own name if there is none, even if one name extends another |
| ComponentNames.OwnNameOnly | pkg/core/serving/common/common.go:490-494 | a generated name matches a component exactly if it was made for it |
| ComponentNames.WhenAllAreFound | pkg/core/serving/common/common.go:486-499 | all components resolve to their own objects exactly if the server cut no base of a name |
| ComponentNames.MatchesUnlessCut | pkg/core/serving/common/common.go:490-494 | the name made for a component matches it exactly if the server did not have to cut its base |
| ComponentNames.CutNameIsMistaken | pkg/core/serving/common/common.go:486-499 | with a cut base one component is taken for another |
| ComponentNames.SplitOfJoined | pkg/core/serving/common/common.go:140-146 | splitting undoes joining for items without the separator |
| Tracing.MergerTracingConfig | pkg/core/serving/common/common.go:804-867 | in place: in each of the two provider and six exporter fields and for each tag and baggage entry what is set locally stays and the global value fills the rest; disabled, missing and global-only configurations are told apart; returns the configuration in effect |
| Tracing.LocalWins | pkg/core/serving/common/common.go:818-866 | completing a configuration: every field that is not empty and every entry that is there keeps its local value, and every other one has the global one |
| Tracing.MergerMap | pkg/core/serving/common/common.go:869-885 | a new map with all entries, those of the first map winning |
| Tracing.GetGlobalTracingConfig | pkg/core/serving/common/common.go:780-802 | the current key has precedence over the older one; nothing if empty or unparsable; always fresh objects |
| Tracing.Ask | pkg/core/serving/openfuncasync/servingrun.go:353-362 | all calls of one attempt find the same configuration, and the serving is changed as by one call |
| Tracing.LaterCallsChangeNothing | pkg/core/serving/common/common.go:804-867 | any number of calls leave what one leaves, and each finds the same configuration in effect |
| Tracing.EmptyIsNeutral | pkg/core/serving/common/common.go:822-862 | what is not set locally yields the global value and the other way round, field by field |
| Tracing.MergeIsAssociative | pkg/core/serving/common/common.go:818-866 | completing from a configuration that was itself completed is completing twice |
| Cluster.WhenSwept | pkg/core/serving/openfuncasync/servingrun.go:147-156 | an object named after its owner is cleaned up exactly if its labels are found and the owner's name was not cut |
| ServingRun.FindableWhen | pkg/core/serving/openfuncasync/servingrun.go:277-283 | exactly which user labels leave workload and proxy findable |
| ServingRun.BothSearchesSweep | pkg/core/serving/openfuncasync/servingrun.go:132-222 | deleting what the two label searches find is deleting everything swept |
| ServingRun.Runner.Clean | pkg/core/serving/openfuncasync/servingrun.go:132-222 | deletes exactly what carries the serving's labels and bears its name; if a call fails, some of it and nothing else |
| ServingRun.Runner.CleanDaprProxy | pkg/core/serving/common/common.go:285-305 | deletes exactly the deployments with the proxy label that bear the serving's name |
| ServingRun.Runner.CreateComponents | pkg/core/serving/common/common.go:112-147 | one object per component, recorded once all exist |
| ServingRun.Runner.CreateWorkload | pkg/core/serving/openfuncasync/servingrun.go:101-117 | one workload more, recorded under its role |
| ServingRun.Runner.CreateScaler | pkg/core/serving/openfuncasync/servingrun.go:455-545 | one scaler more if there are triggers |
| ServingRun.Runner.CreateDaprProxy | pkg/core/serving/common/common.go:152-260 | one proxy more if one is needed |
| ServingRun.Runner.Run | pkg/core/serving/openfuncasync/servingrun.go:82-130 | after success, exactly one object for every role needed, as specified and recorded, has been added to what cleaning leaves; on a tidy server and with findable labels, whichever calls fail or lose their answer, at every moment at most one object in every role, after success no others, nothing else touched |
| ServingRun.Runner.Retry | pkg/core/serving/openfuncasync/servingrun.go:82-130 | the same over any number of attempts with edits in between |
| ServingRun.Runner.RunTwice | pkg/core/serving/openfuncasync/servingrun.go:82-130 | after two successful attempts the serving has exactly the recorded objects if and only if the user's labels leave its objects findable |
| ServingRun.WhenRepeatingDoublesNothing | pkg/core/serving/openfuncasync/servingrun.go:147-156 | the same on what two attempts leave, and otherwise an object is there twice |
| ServingRun.WhatIsCreated | pkg/core/serving/openfuncasync/servingrun.go:378-453 | which roles are needed, and the kind and name of the object for each: workload by its type, a scaled job for jobs and a scaled object for anything else, a deployment as proxy |
| ServingRun.HowItIsLabelled | pkg/core/serving/openfuncasync/servingrun.go:277-283 | every object belongs to the serving and is marked as managed and with its name; workload and proxy carry the user's labels, which win |
| BuilderRun.FindableWhen | pkg/core/builder/shipwright/builderrun.go:353-355 | created objects are found by cleaning exactly if the builder's labels leave the tracking label alone |
| BuilderRun.Runner.Clean | pkg/core/builder/shipwright/builderrun.go:236-269 | deletes exactly the Builds and BuildRuns with the builder's label and name; if a call fails, some of them and nothing else |
| BuilderRun.Runner.Start | pkg/core/builder/shipwright/builderrun.go:84-132 | whichever calls fail, at every moment at most one Build and one BuildRun; after success exactly the two recorded |
| BuilderRun.Runner.Retry | pkg/core/builder/shipwright/builderrun.go:84-132 | the same over any number of attempts |
| Conversion.ConvertServingTo | apis/core/v1beta1/function_conversion.go:192-345 | computes `To`, including which inputs fail to parse or panic; what that is, field by field, is in `WhatTheHubGets` |
| Conversion.ConvertServingFrom | apis/core/v1beta1/function_conversion.go:515-636 | computes `From`, including which hub objects panic; what that is, field by field, is in `WhatTheSpokeGets` |
| Conversion.WhatTheHubGets | apis/core/v1beta1/function_conversion.go:192-345 | the way to the hub panics exactly for a scaled job without a scaled object, fails exactly if an annotation does not parse, and otherwise gives every field what the spoke says: the order of plugins before, backwards after, each explicit list in place of its own |
| Conversion.WhatTheSpokeGets | apis/core/v1beta1/function_conversion.go:515-636 | the way to the spoke panics exactly if a reference, Dapr part or state that is looked into is nil, and otherwise gives every field what the hub says |
| Conversion.ConvertInputs | apis/core/v1beta1/function_conversion.go:209-222 | one trigger per input, typed by its component if that is known |
| Conversion.ConvertScale | apis/core/v1beta1/function_conversion.go:226-280 | replica bounds of scaled object and job override the general ones; workload type; panics exactly for a job without an object |
| Conversion.ConvertOutputs | apis/core/v1beta1/function_conversion.go:282-301 | keeps, in order, exactly the outputs of known components |
| Conversion.KnownInOrder | apis/core/v1beta1/function_conversion.go:282-301 | what is known of a list put together is what is known of its parts, so outputs are judged one by one and keep their order |
| Conversion.ConvertStates | apis/core/v1beta1/function_conversion.go:303-310 | wraps every state |
| Conversion.ConvertPlugins | apis/core/v1beta1/function_conversion.go:323-342 | the order becomes the list before and, reversed, the list after, unless an explicit list replaces either |
| Conversion.ConvertAnnotations | apis/core/v1beta1/function_conversion.go:312-342 | tracing and hooks from the annotations; fails exactly if a non-empty one does not parse |
| Conversion.Reverse | apis/core/v1beta1/function_conversion.go:347-353 | the list backwards |
| Conversion.ConvertOutputsFrom | apis/core/v1beta1/function_conversion.go:583-593 | one output each; panics exactly if one has no Dapr part |
| Conversion.HubNormalForm | apis/core/v1beta1/function_conversion.go:192-369 | converting a converted Function back and forth again reproduces its serving part, and the spoke it was converted back to is reproduced as well |
| Conversion.WhatTheSpokeKeeps | apis/core/v1beta1/function_conversion.go:515-636 | what survives the way to the hub and back: components, states, port and route or inputs, triggers, and all outputs exactly if all their components are known |
| Conversion.BoundsComeBack | apis/core/v1beta1/function_conversion.go:540-581 | the replica bounds that come back are those of the most specific place that set them |
| Conversion.OutputsComeBack | apis/core/v1beta1/function_conversion.go:282-301 | exactly the outputs of known components come back, unchanged and in order |
| Conversion.OutputsAgain | apis/core/v1beta1/function_conversion.go:282-301 | outputs that were kept once are kept again unchanged |
| Conversion.ScaleAgain | apis/core/v1beta1/function_conversion.go:226-280 | scale options and workload type survive the way to the spoke and back |
| Conversion.AnnotationsAgain | apis/core/v1beta1/function_conversion.go:312-342 | hooks and tracing survive being printed into annotations and parsed again |

## Left out

- BuildCount.BuildersAreCounted: asks for a place for both classes of finished builds, because otherwise it is false (`RepeatedBuild.WhenBuildersAreCounted`), and for creation times that grow from builder to builder, because the order of builders made in the same second is arbitrary.
- RebuildBound.BuildersAreBounded: attempts are not interleaved with the progress of builders; interleaved ones are covered by `BuildCount`.
- NoGap.RolloutLeavesNoGap: asks that no handover breaks off after its predecessor was deleted, because then it is false (`WhenHandoverLeavesNoGap`), that nobody else deletes a serving on record, and that no edit switches building or serving on or off, which resets the record by design.
- ServingController.StateOnlyMovesOn: asks that timer ticks are delivered after the deadline, not at that very instant, because otherwise it is false (`TimeoutAtTheDeadlineIsNotFinal`).
- GatewayHistory.ListenersAreOwned: covers Gateway objects that refer to a Kubernetes Gateway, not those that define one, and edits after an unrecorded merge only if they are harmless, because otherwise it is false (`WhenEditAfterMergeIsHarmless`).
- ComponentNames.NameRoundTrip: asks for bases the server does not cut, because otherwise it is false (`WhenAllAreFound`), and for suffixes without dashes and names without commas, which the server's and the API's name rules give.
- ComponentNames.WhenAllAreFound: asks that no component's own name is the name generated for it.
- BuilderReconciler.NextAttemptStopsIt: the class's attempts do not fail on the way, so a BuildRun created but not recorded does not arise there; `WhenCancelledBuildGoesOn` covers such a run.
- ServingRun.Runner.Run: attempts for one serving are serialized and other controllers' calls are not interleaved with them; tidiness asks for owner names short enough not to be cut and for findable labels, because otherwise it is false (`WhenSwept`, `FindableWhen`, `RunTwice`).
- BuilderRun.Runner.Start: as for `ServingRun.Runner.Run`; waiting for a Build is one bit that says whether it registered in time.
- Conversion.HubNormalForm: the annotation map that the two versions share in memory after a conversion is modelled as a value, so the update of the hub object's annotations through the shared map is not captured; null elements of lists are not modelled.
- FunctionController.FunctionReconciler.Reconcile: the class methods here and in `BuilderReconciler`, `ServingReconciler` and `GatewayMerge` run one attempt without failing calls to the API server; failing calls and interleavings are covered by the step machines, which the methods are shown to be runs of.
- The HTTP route and the Services: mostly field filling; the results on the Function controller cover the builder and serving part of an attempt.
- Deletion of builders by age, event recording, watches and the API client.
- Durations, sources, addresses and route in the status: they influence no decision modelled here. `fn.Status.Build.BuildDuration` in particular is not part of this model.
- Results of Shipwright, KEDA, Knative and Dapr: a result is nothing or any terminal value.
- JSON, YAML and hashing: functions, with parsing undoing printing where a result needs it.
- The build part and status of the conversion, and the conversion of Servings.
- The `kedahttp` and `knative` engines, event sources and triggers, webhooks.
- Pointers to nil states: creating components dereferences them, and the model has no such pointers.
- Memory-model races on the table of timers: every access is one atomic step.

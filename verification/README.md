# A verified model of the rebalance engine

The rebalance engine takes an OrchestrationProfile through a decision lifecycle

    Watching -> Triggered -> Evaluating -> Decided -> Enacting -> Watching

whose state lives in a versioned object on the API server, while the process that drives it
may stop at any point. One worker per profile reads the stored status, evaluates triggers,
asks an AI agent, checks its answer against guardrails and enacts it: moving a pod through a
hint left in an in-memory store that the placement server reads, scaling or resizing a
workload, or deleting pods stuck Pending. Other programs write the same object.

This project models that engine in Dafny and proves what it keeps to: in every interleaving,
over every run of any number of profiles, for every answer of the agent and of the cluster.
`dafny verify dfyconfig.toml` checks it.

## How the model is built

- **One write.** `Step.dfy` is the pure step of the state writer and of the other writers of
  the object; `StateWriter.dfy` is the writer's retry loop on an API object with a resource
  version, proved to be a sequential run of that step; `Interleaving.dfy` lets any number of
  clients interleave read by read and update by update; `History.dfy` defines every status
  field again, from the log of commits alone; `Migration.dfy` is the one-off migration tool.
- **One Reconcile.** `Plans.dfy` gives, for everything the outside world may answer, the list
  of effects that a Reconcile performs. `Reconciler.dfy` is the imperative driver with its
  dispatchers, proved to do exactly that and to stop at the first transition that is not
  confirmed. `Triggers.dfy`, `PendingPods.dfy`, `Scale.dfy`, `Resources.dfy`, `Moves.dfy`,
  `EnergyGate.dfy`, `DecisionStore.dfy` and `RateLimiter.dfy` are the parts it calls.
- **What holds of every Reconcile.** `Legality.dfy` is an automaton that knows nothing of
  triggers, agents and enactors and accepts every plan; `RunShape.dfy`, `Guardrails.dfy` and
  `Escalation.dfy` hold the shape, the guardrails, the dry run, the watchdog and the cap on
  failing cycles; `StaleReads.dfy` says what a fresh outer read is needed for.
- **The whole system.** `Fleet.dfy` runs the plans of many profiles effect by effect, with a
  crash possible after every single step; `FleetResults.dfy`, `Cooldown.dfy`, `Waiting.dfy`
  and `FailureCap.dfy` hold what follows. `MoveProtocol.dfy` interleaves the enactor of a Move with the store, the placement
  server (`Scores.dfy`), the scheduler, the owner of the pods and the clock.

## Assumptions

- One worker at a time per profile (the controller's work queue), one process (leader election).
- In `Fleet.dfy` a Reconcile begins from the status that is stored. The results on the writer
  (`StateWriter`, `Interleaving`, `History`, `Migration`) and on the driver (`Reconciler`) do
  not need this: there the copy handed to Reconcile is arbitrary. What can go wrong with an old
  copy is `StaleReads.StaleStartIsNeverRecovered`.
- The library rate limiter is a token bucket that is full at the start of the process and
  whose Wait refuses at once when the token would come after the deadline. Its limit is
  positive (a configured value <= 0 is replaced by the default).
- Times are whole seconds, the precision at which metav1.Time is stored, on one clock that does
  not go back; the zero time is 0. Identifiers and fresh uuids are opaque.
- Scores and improvements are real numbers, quantities are integers in thousandths of a unit
  with 0 for unspecified.
- The scheduler binds a pod to a top of its last scoring (only `MoveProtocol.dfy` uses this).
- A scoring of a workload's pod looks up the key of the profile in question, which needs that
  profile to be the only one on its application (`MoveProtocol.dfy`).
- The pod lists that the enactors work on come from a cached client in the engine; where a result
  is about pods over time (`MoveProtocol.dfy`, and `NoMatchWithinFloor` and `RematchIff` in
  `PendingPods.dfy`) a list is taken to show the pods as they are.

## What the proofs brought to light

- **An old outer copy can hide a stuck cycle for good.** The writer re-reads the object but
  checks only its state; escalation is checked on the copy Reconcile was handed. A cycle
  started from a copy older than an escalation, and then interrupted, is skipped by the
  watchdog until a human clears the flag (`StaleStartIsNeverRecovered`). A commit leads there
  exactly when it is a transition to Triggered that finds the profile escalated (`MaskedIff`).
- **A refused Move is not paced by the limiter.** The comment at
  internal/rebalance/dispatch.go:228-241 says that Wait blocks before it fails and so paces the
  retries. Under the limiter's contract a refusal is given at once (`RefusedUntilRefilled`), and
  this exit arms no cooldown; what stops the loop is the escalation threshold, crashes or not
  (`FailuresAreCapped`). It takes many waiting workers: for a timeout of whole minutes a worker is
  refused exactly when 60 * w >= timeout * limit with w others waiting (`RefusedIff`). With ten
  workers and the default five minutes that happens only at a configured limit of one Move a
  minute, and there to the seventh worker to ask at one instant (`SeventhIsRefused`).
- **A Move of a pod that keeps its name is never seen.** The replacement is recognised by a new
  name only, so the replacement of a StatefulSet pod always runs into the timeout
  (`MoveNeedsNewName`).
- **A hint can be spent without effect.** A scoring whose candidates lack the target consumes
  the entry and then leaves the answer to the agent (`UnusableHintIsSpent`).
- **An honoured Move can be recorded Failed.** A pod of the workload created and scored between
  the listing and the put counts as a replacement too; seen first, it decides the outcome, though
  the real replacement was steered to the target (`EarlyPodMakesMoveFail`). Only the pod seen
  first decides (`EnactedIsReal`).
- **The bypass and its enactor do not select the same pods**, though the comment on
  hasPendingPod says so: they do exactly when no stuck pod is younger than the floor
  (`SelectionsAgreeIff`).
- **Finalizers break the floor under the bypass.** A pod they hold, if stuck since before the
  retry's listing, lets the bypass match again within the floor, and at once if it was ripe;
  nothing else does (`RematchIff`, `HeldPodRipensWithinFloor`).
- **The classifier is stricter than the gate.** With required watts reported and sufficiency
  not, the gate is closed while a timeout is still recorded Failed (`GateClosedIff`,
  `GateClosedYetFailed`).
- **Clearing only the flag buys one cycle.** A human who clears `escalated` but not the streak
  gets a single failing cycle before the next escalation (`ClearsBuy`).
- **The migration does not trim the history**, so it keeps the bound only where there is room
  (`MigrationKeepsBoundIff`).
- **Zero quantities are accepted and change nothing**, and the cycle is recorded Enacted
  (`ZeroTargetsPatchNothing`, `AcceptedPatchIsEnacted`). A patch can change something exactly when
  one target is not zero (`PatchChangesIff`).
- **The bypass does not consult dryRun.** A dry-run profile's pods are deleted by it whenever the
  retry finds one to delete, and by nothing else (`DryRunTouchesClusterIff`).

## Model

| member | source | states |
|---|---|---|
| StateMachine.TableByRank | internal/rebalance/state.go:63-86 | The table allows exactly: rest to Triggered, one stage forward in a cycle, and home to Watching from any stage of it |
| Step.RepeatedTransitionIsRefused | internal/rebalance/writer.go:136-140 | A transition repeated on the status it just produced is refused, with whatever options, time and id |
| Step.ReplayConcat | internal/rebalance/writer.go:119-229 | A run of commits can be cut anywhere and continued from the profile it had reached |
| StateWriter.TryIsSequential | internal/rebalance/writer.go:119-229 | One attempt of the retry closure stores nothing, or only commits that replay as pure steps, its own last |
| StateWriter.AttemptsAreSequential | internal/rebalance/writer.go:119-229 | A whole transition call, whatever others commit between its reads and updates: the object is a sequential run of steps in which the call commits at most once and last, and Committed is answered only with what that commit stored |
| StateWriter.FirstUnlostRoundDecides | internal/rebalance/writer.go:130-228 | Every race lost to another writer's commit is retried on the object that commit left; the first round that loses none alone decides what is committed and answered: an API error, a refusal, or its own transition with its own time and id |
| StateWriter.ExhaustedIff | internal/rebalance/writer.go:130-228 | The call gives up if and only if it loses the race in every round, and then it has committed nothing |
| StateWriter.AcceptedIs | internal/controller/op_status.go:42-70 | Writes of others that follow from one another are all stored, and one is stored if and only if one of them fits the object as it is |
| StateWriter.UndisturbedCommits | internal/rebalance/writer.go:119-229 | An undisturbed call that is valid is exactly its one commit and answers Committed with it |
| StateWriter.ApiObject.UpdateStatus | internal/rebalance/writer.go:212-214 | A conditional update stores exactly the given status if the version is the one read, and otherwise nothing |
| StateWriter.ApiObject.OthersCommit | internal/controller/op_status.go:42-70 | What other writers of the object leave behind is the sequential run of those of their writes that were accepted |
| StateWriter.StateWriter.Enter | internal/rebalance/writer.go:142-162 | The fields every transition sets, with a new id, start time and cleared action and details on Triggered |
| StateWriter.StateWriter.Finish | internal/rebalance/writer.go:166-210 | The fields a terminal transition sets: streak, promoted outcome, escalated flag, cooldown and the trimmed newest-first history |
| StateWriter.StateWriter.Mutate | internal/rebalance/writer.go:136-210 | Validation and mutation of the re-read status are the pure step, refusals included |
| StateWriter.StateWriter.Once | internal/rebalance/writer.go:130-226 | One run of the retry closure does to the object and answers what the specification of one attempt says, a lost race included |
| StateWriter.StateWriter.Transition | internal/rebalance/writer.go:119-229 | The retry loop does to the object, and answers its caller, what the specification of the whole call says |
| StateWriter.UpdatePlacement | internal/controller/op_status.go:42-70 | A placement update from a copy read earlier changes the placement part alone if nothing was committed since that read, and otherwise nothing, asking to run again |
| Interleaving.EveryInterleavingIsSequential | internal/rebalance/writer.go:119-229 | In every reachable state of every interleaving of transition calls, placement updates from stale copies, migrations, human clears and spec edits: the object is the sequential run of the log, each call is in it at most once, every reported success is in it at the place it names, and stored times are in commit order |
| Interleaving.NothingIsLost | internal/rebalance/writer.go:119-229 | No later step of any client takes a commit out of the log |
| Interleaving.FourLossesEndCall | internal/rebalance/writer.go:130-228 | In every interleaving a transition or migration goes on after each lost update until it has lost four, and only then is told of a conflict |
| Interleaving.PlacementUpdateKeepsStatus | internal/controller/op_status.go:42-70 | A placement update that is stored leaves the rebalancing status as it is, though it writes back a whole status read earlier |
| History.StatusIsFunctionOfLog | internal/rebalance/writer.go:142-214 | From any profile and after every run of commits, every field of the profile equals an independent definition on the log: state, reason and time of the last transition, cycle id and start, action, details, streak, escalated flag, cooldown and history. The streak is the trailing run of requested Failed or Deferred outcomes since the last clear, a record is Escalated if and only if that was requested or the run reached the configured limit, 3 by default, and the history is a newest-first prefix of the full one, of length min(max, total) unless a migration put one in front |
| History.LimitEscalatesExactly | internal/rebalance/writer.go:178-196 | From a cleared profile exactly the configured number of Failed or Deferred endings, 3 by default, escalates it; fewer do not, whatever else is committed in between |
| History.PrependKeepsNewest | internal/rebalance/writer.go:256-265 | Prepending and trimming keeps the history the newest-first prefix of the full one |
| History.CycleAccounting | internal/rebalance/writer.go:145-152 | Begun cycles and one in flight at the start equal ended ones and one in flight now; a cycle takes two to five commits; every ended cycle and every migration has its record |
| History.CooldownNeverDecreases | internal/rebalance/writer.go:198-200 | With one cooldown length and commit times in order, the stored cooldown never moves back |
| History.ArmedUntilIsBounded | internal/rebalance/writer.go:198-200 | The cooldown never reaches further than one length past the latest commit |
| Migration.LegacyNeedsMigration | cmd/migrate-rebalance-status/main.go:136-167 | A legacy profile refuses every transition until migrated; the migration rests it, files one record in front of the others, and is itself not repeatable |
| Migration.LegacyStands | cmd/migrate-rebalance-status/main.go:99-118 | No writer but the migration takes a profile off its legacy state and none brings one back, so the outcome filed from an old listing is the stored one |
| Migration.MigrateProfile | cmd/migrate-rebalance-status/main.go:136-167 | Every lost race is retried, and the first round that loses none decides; a reported success leaves no legacy state; undisturbed it is one commit of the migration step, or none for a profile already migrated |
| Migration.MigrateOnce | cmd/migrate-rebalance-status/main.go:142-166 | One run of the closure goes round again exactly if it read a legacy profile and lost the update, and otherwise succeeds exactly if it read and was migrated or answered |
| Migration.MigrateAll | cmd/migrate-rebalance-status/main.go:98-130 | Every profile is counted once as migrated, skipped or failed; a dry run and a skipped profile change nothing; without failures no profile listed as legacy remains so |
| DecisionStore.WorkloadKeyIsInjective | internal/placement-server/decision_store.go:97-102 | For slash-free namespaces two workloads share a key if and only if they are the same |
| DecisionStore.DecisionStore.Put | internal/placement-server/decision_store.go:105-116 | Stores the hint with its expiry under its key alone and extends the history |
| DecisionStore.DecisionStore.Lookup | internal/placement-server/decision_store.go:121-136 | Answers an entry if and only if a put of the key stored it, no operation on the key followed, and its time to live has not passed; consumes the entry either way |
| DecisionStore.AnswerIffAlive | internal/placement-server/decision_store.go:121-136 | Over every history: a lookup is answered with an entry if and only if that is alive in these terms |
| DecisionStore.DecisionStore.Delete | internal/placement-server/decision_store.go:142-146 | Removes the entry of the key alone |
| DecisionStore.Extend | internal/placement-server/decision_store.go:105-146 | No operation changes what is pending under another key |
| DecisionStore.EveryPutIsAccountedFor | internal/placement-server/decision_store.go:105-146 | In every run: puts = hits + expired lookups + overwritten + deleted + live entries |
| DecisionStore.LiveEntries | internal/placement-server/decision_store.go:80-85 | The map holds exactly the keys that the history says are live |
| DecisionStore.AtMostOneHitPerPut | internal/placement-server/decision_store.go:118-136 | After a lookup no later lookup of the key is answered until it is put again |
| EnergyGate.GateClosedIff | internal/placement-server/builder.go:594-622 | On one snapshot the gate is closed for the application's pods if and only if the classifier says Deferred or sufficiency is not reported while required watts are |
| EnergyGate.DeferredIff | internal/rebalance/energy_gate.go:54-80 | A timeout is Deferred if and only if the profile is energy-aware and the first resource referring to its application reports the energy insufficient; otherwise it is Failed |
| EnergyGate.GateClosedWhen | internal/placement-server/builder.go:594-622 | The gate is closed if and only if the profile found is energy-aware and the first resource reports the energy insufficient, or required watts and nothing on sufficiency |
| EnergyGate.SoleProfileIsFound | internal/placement-server/builder.go:197-226 | A profile alone on its application's namespace and name is the one found for its pods |
| EnergyGate.DeferredMeansGateClosed | internal/rebalance/energy_gate.go:54-80 | A timeout reclassified Deferred is one the gate explains, and conversely where sufficiency is reported |
| EnergyGate.GateClosedYetFailed | internal/rebalance/energy_gate.go:54-80 | A concrete resource that closes the gate while the timeout stays Failed |
| Scale.KedaScaledObjectOwner | internal/rebalance/scale_enactor.go:149-156 | The name of the first owner that is a ScaledObject, or none |
| Scale.ResolveReplicaBounds | internal/rebalance/scale_enactor.go:107-145 | The first autoscaler targeting the workload gives the bounds and whether KEDA owns it; otherwise the configured range with its defaults |
| Scale.BoundsAre | internal/rebalance/scale_enactor.go:107-156 | The bounds are the first targeting autoscaler's, a missing minimum being 1, KEDA's if and only if a named ScaledObject is its first such owner; without one 1 to 10 or as configured |
| Scale.AwaitReadyReplicas | internal/rebalance/scale_enactor.go:224-256 | True if and only if some successful poll read exactly the target |
| Scale.ScaleEnactor | internal/rebalance/scale_enactor.go:169-220 | Patches at most once, reports Enacted exactly when a poll saw the target, classifies the timeout otherwise, and fails before any effect when the workload cannot be patched |
| Scale.ScaleOutcomes | internal/rebalance/scale_enactor.go:169-220 | The workload is patched to the target if and only if it is a Deployment or StatefulSet that can be fetched and stored, and then Enacted if and only if some poll read the target |
| Resources.ApplyTargetResources | internal/rebalance/resource_enactor.go:313-328 | Overlays the given targets on requests and limits of one container in place and leaves the rest of the template |
| Resources.PatchTemplate | internal/rebalance/resource_enactor.go:145-152 | Patches the first container of that name, if any |
| Resources.PatchSetsExactlyTheTargets | internal/rebalance/resource_enactor.go:313-328 | Requests = limits = target for exactly the given resources of exactly the first container of that name, idempotent, all else unchanged |
| Resources.ZeroTargetsPatchNothing | internal/rebalance/resource_enactor.go:194-202 | Targets of zero pass every bound and patch nothing |
| Resources.InBoundsIff | internal/rebalance/resource_enactor.go:173-202 | Targets pass if and only if each is 0 or within the configured range, by default 50m to 2 cores and 64Mi to 2Gi |
| Resources.PatchChangesIff | internal/rebalance/resource_enactor.go:313-328 | A patch can change a template if and only if one of its targets is given |
| Resources.AwaitResizeConvergence | internal/rebalance/resource_enactor.go:396-464 | True if and only if some read confirms the targets and no read before it rejects the resize |
| Resources.ConvergedIff | internal/rebalance/resource_enactor.go:443-464 | Converged if and only if the first status of the container that carries resources shows every given target |
| Resources.ReachedIsPrefix | internal/rebalance/resource_enactor.go:340-384 | The pods reached are a prefix of the matching ones, all of them unless one spends the budget, and then only the last reached did |
| Resources.ResizedAtMostReached | internal/rebalance/resource_enactor.go:340-384 | Resized never exceeds attempted, and equals it if and only if every pod reached was accepted and read back converged |
| Resources.ResizeRunningPods | internal/rebalance/resource_enactor.go:340-384 | Attempts exactly that prefix in order and counts exactly those that converged |
| Resources.MatchingOne | internal/rebalance/resource_enactor.go:365-371 | A pod alone matches if and only if it has the container |
| Resources.MatchingAre | internal/rebalance/resource_enactor.go:365-371 | The matching pods are the listed ones that have the container, each as often as listed and in list order |
| Resources.ResizedCounts | internal/rebalance/resource_enactor.go:371-378 | Resized is the number of pods whose resize was accepted and then read back before any rejection |
| Resources.ResourceEnactor | internal/rebalance/resource_enactor.go:239-308 | Stores the patched template or nothing at all; once stored the outcome is Enacted however the resizes went |
| Resources.ResourceOutcomes | internal/rebalance/resource_enactor.go:239-308 | Enacted if and only if the workload is a Deployment or StatefulSet with that container that can be fetched and stored; the template comes before the pods reached, and nothing happens otherwise |
| Moves.MoveEnactor | internal/rebalance/move_enactor.go:83-152 | Every way out leaves the store as it was minus this workload's entry, having put the hint for that pod and target, let lookups of the key pass, and deleted it; the answer and the order of effects for every listing, eviction reply, scoring and poll |
| Moves.AwaitReplacement | internal/rebalance/move_enactor.go:166-194 | The first listed pod with a name not there before and a node, whatever the placement server looks up meanwhile |
| Moves.FindPodByName | internal/rebalance/move_enactor.go:154-161 | Found if and only if a listed pod has that name |
| Moves.EnactedMeansMoved | internal/rebalance/move_enactor.go:107-151 | Enacted only after the pod was evicted and a pod not there before was listed on the target |
| Moves.MoveDecides | internal/rebalance/move_enactor.go:95-151 | The answer by raw fields: an error without a listing, without the pod or with a failed eviction; Deferred on too many requests; else Enacted or Failed by the node of the first new pod seen, or the classified timeout |
| Moves.ObservedIsFirst | internal/rebalance/move_enactor.go:175-189 | The replacement seen is the first, poll by poll and in list order, with a node and a name not there before |
| Moves.MoveNeedsNewName | internal/rebalance/move_enactor.go:166-194 | A replacement is seen if and only if some listing shows a new name with a node; with reused names the move times out |
| PendingPods.HasPendingPod | internal/rebalance/triggers.go:288-296 | True if and only if some pod is Pending, unscheduled and old enough |
| PendingPods.RetryPendingSchedule | internal/rebalance/retry_enactor.go:47-74 | Deletes every stuck pod in list order up to a failing delete; succeeds if and only if there was one and none failed |
| PendingPods.DeletesInOrder | internal/rebalance/retry_enactor.go:57-67 | The deletes go through the listing in order, one for each Pending and unscheduled pod, and stop after the first that fails |
| PendingPods.MatchFindsWork | internal/rebalance/triggers.go:257-296 | A bypass match on the pods then listed always leads to a delete, only stuck pods are deleted, and without a failing delete the retry succeeds |
| PendingPods.SelectionsAgreeIff | internal/rebalance/triggers.go:277-296 | Trigger and enactor select the same pods if and only if no stuck pod is younger than the floor |
| PendingPods.NoMatchWithinFloor | internal/rebalance/triggers.go:264-275 | After a successful retry whose deletes are carried out, whatever else happens to the pods, no bypass can match before the floor has passed if finalizers hold no pod stuck before the listing |
| PendingPods.RematchIff | internal/rebalance/triggers.go:264-296 | On otherwise unchanged pods a successful retry can be followed by a match within the floor if and only if finalizers hold a pod stuck before the listing, and at once if and only if they hold a ripe one |
| PendingPods.RetryDeletesStuck | internal/rebalance/retry_enactor.go:47-74 | A successful retry deletes exactly the stuck pods of its listing |
| PendingPods.HeldPodRipensWithinFloor | internal/rebalance/triggers.go:264-275 | Pods on which a successful retry is followed by no match at once and by one five seconds later |
| Triggers.Evaluate | internal/rebalance/triggers.go:103-139 | The loop over the declared conditions gives the first that holds, or a failed evaluation when pods cannot be listed |
| Triggers.FirstHoldingIsFirst | internal/rebalance/triggers.go:103-139 | No match if and only if no declared condition holds; a match is the first declared one that does |
| Triggers.VerdictAtFirst | internal/rebalance/triggers.go:103-139 | The first condition that holds alone gives the verdict and whether it bypasses the agent |
| Triggers.EnergyConditionIff | internal/rebalance/triggers.go:221-262 | The energy condition holds if and only if the first resource for the application reports insufficiency, a delaying action, or a reached window with an old unscheduled pod; it bypasses if and only if it is the last and the energy is not insufficient |
| Triggers.OtherConditionsIff | internal/rebalance/triggers.go:115-131 | The pressure and failure conditions hold if and only if some pod's non-empty node is hot or reports Ready other than true; Scheduled always does, and unknown ones never |
| Triggers.BypassOnlyFromEnergy | internal/rebalance/triggers.go:221-262 | A bypass comes only from EnergyThreshold, only as the retry, and only with a ripe pod |
| Triggers.EvaluateNodeResource | internal/rebalance/triggers.go:146-170 | Matches if and only if some pod's non-empty node is under pressure, consulting each distinct node at most once |
| Triggers.EvaluateNodeFailure | internal/rebalance/triggers.go:176-200 | Matches if and only if some pod's non-empty node reports Ready other than true, consulting each distinct node at most once |
| Triggers.EvaluateEnergyThreshold | internal/rebalance/triggers.go:221-262 | Matches on insufficient energy, on a delayed action, or on a reached window with a ripe pod, and only the last asks for the bypass |
| RateLimiter.MoveRateLimiter.Wait | internal/rebalance/dispatch.go:222-227 | Grants exactly when the next token comes within the timeout, and a refusal takes nothing |
| RateLimiter.GrantsAreSpaced | internal/rebalance/reconciler.go:277-280 | Grants come due in order, and any stretch of them spans all but a burst's worth of refill time |
| RateLimiter.WindowBound | internal/rebalance/reconciler.go:277-280 | In any window of W seconds at most L + L*W/60 grants come due |
| RateLimiter.PrefixBound | internal/rebalance/reconciler.go:277-280 | The same counted from the start of the process |
| RateLimiter.RefusedUntilRefilled | internal/rebalance/dispatch.go:225-249 | After a refusal, asking again is refused if and only if the refill has not yet made up what was lacking beyond the timeout |
| RateLimiter.GrantedIfFewWait | internal/rebalance/reconciler.go:277-280 | With u grants not yet due, a token is granted whenever u + 1 come within the timeout |
| RateLimiter.RefusedIfManyWait | internal/rebalance/dispatch.go:222-227 | With u > 0 grants not yet due, none is granted if those alone fill the timeout |
| RateLimiter.SeventhIsRefused | internal/rebalance/dispatch.go:225-249 | At one Move a minute and five minutes, of seven workers asking at one instant six are granted and the seventh is refused at once |
| Waiting.UndueAreHeld | internal/rebalance/dispatch.go:222-227 | In every reachable state every grant not yet due is reserved by a worker waiting for it |
| Waiting.WaitingDecides | internal/rebalance/dispatch.go:210-249 | In every reachable state a worker that asks while w others wait is granted if w + 1 tokens come within the timeout, and refused if w > 0 and the w tokens ahead of it fill it |
| Waiting.WaitingCount | internal/rebalance/dispatch.go:222-227 | In every reachable state the grants not yet due are the last ones, exactly as many as there are workers waiting |
| Waiting.RefusedIff | internal/rebalance/dispatch.go:210-249 | For a timeout of whole minutes a worker that asks is refused if and only if 60 * w >= timeout * limit |
| Reconciler.ExecThen | internal/rebalance/dispatch.go:258-272 | An enactor's effects happen in order before the transition that follows it |
| Reconciler.NothingAfterAFailure | internal/rebalance/dispatch.go:168-581 | Whatever is answered, the effects done are the plan's in order, and nothing is done after a transition that was not confirmed |
| Reconciler.DoneMeansConfirmed | internal/rebalance/writer.go:227-229 | A transition counts as done if and only if the writer confirmed it |
| Reconciler.Reconciler.Commit | internal/rebalance/writer.go:119-229 | One transition of the driver, after which the rest of the plan is still ahead if it was confirmed and nothing is if it was not |
| Reconciler.Reconciler.Reconcile | internal/rebalance/reconciler.go:310-379 | For every copy it is handed and every answer of the world the driver does exactly its plan up to the first transition not confirmed; for a disabled or escalated profile nothing changes at all; a started cycle with no disturbed call ends in Watching with exactly one more record; store and limiter are unchanged under dry run, and the store is left without an entry it did not have |
| Reconciler.Reconciler.EnactBypassAction | internal/rebalance/reconciler.go:391-447 | The four transitions, the retry and the one terminal record, with early returns |
| Reconciler.Reconciler.RecoverStuckCycle | internal/rebalance/reconciler.go:452-476 | Nothing before the stale threshold, one terminal transition from it on |
| Reconciler.Reconciler.EvaluateWithAI | internal/rebalance/reconciler.go:484-557 | Triggered, Evaluating, then the dispatch of the answer or a failed evaluation with cooldown |
| Reconciler.Reconciler.DispatchDecision | internal/rebalance/dispatch.go:64-160 | Each action goes to its dispatcher, unknown ones end Failed |
| Reconciler.Reconciler.DispatchMove | internal/rebalance/dispatch.go:168-303 | Threshold, well-formedness, Decided, dry run, limiter, Enacting, enactor and terminal record, in that order |
| Reconciler.Reconciler.DispatchScale | internal/rebalance/dispatch.go:314-431 | Threshold, target, KEDA, bounds, Decided, dry run, Enacting, enactor and terminal record, in that order |
| Reconciler.Reconciler.DispatchResource | internal/rebalance/dispatch.go:439-581 | Threshold, well-formedness, workload and container, existing limits, bounds, Decided, dry run, Enacting, enactor and terminal record, in that order |
| Reconciler.Reconciler.DispatchDryRun | internal/rebalance/dispatch.go:280-303 | Enacting and home with Enacted, and nothing in between |
| Legality.EveryPlanIsLegal | internal/rebalance/dispatch.go:168-581 | Whatever is seen and answered, every effect comes in the stored state and with the action that covers it, hints and tokens are taken and returned in pairs, and the plan ends at rest with one record |
| Legality.BypassIsRetry | internal/rebalance/reconciler.go:354-366 | The only bypass Reconcile ever enacts is the retry of pending pods |
| RunShape.RunShape | internal/rebalance/reconciler.go:391-534 | A started cycle files exactly one outcome and visits Triggered, Evaluating, Watching, or Decided-Watching, or Decided-Enacting-Watching, which one being decided by the guardrails and, for a real Move, the limiter alone; without an answer it ends Failed, the bypass ends Enacted if and only if its retry succeeded, and the agent is asked if and only if its context was built |
| RunShape.ActsIff | internal/rebalance/reconciler.go:320-379 | A Reconcile does anything if and only if the profile is enabled, not escalated, and either off rest for the configured time, 15 minutes by default, or at rest with a first condition that holds and no cooldown left, or that is an open energy window |
| RunShape.DispatchShape | internal/rebalance/dispatch.go:64-581 | The same for every answer of the agent, with what each may do to cluster, store and limiter |
| RunShape.EffectsAreGuarded | internal/rebalance/dispatch.go:168-581 | On the AI path nothing outside the profile is touched unless every guardrail accepted and dry run is off, and then only what the answer asked for |
| RunShape.DryRunSimulates | internal/rebalance/dispatch.go:280-303 | A dry run leaves the same states, actions, outcomes and cooldowns as the real run whose limiter grants and whose enactor reports Enacted |
| RunShape.DryRunTouchesClusterIff | internal/rebalance/reconciler.go:391-447 | Under dry run a started cycle touches the cluster if and only if it is the bypass and the retry has a pod to delete |
| RunShape.WatchdogRecovers | internal/rebalance/reconciler.go:452-476 | From every mid-cycle status, a young cycle is left alone and a stale one goes home in one transition with one record of the interrupted cycle, Failed or promoted to Escalated, and the cooldown armed |
| Guardrails.RefusalIsFirst | internal/rebalance/dispatch.go:168-581 | A refusal is the verdict of the first guardrail that fails |
| Guardrails.AnswersEndByTable | internal/rebalance/dispatch.go:49-581 | Every answer, known or not, ends as an ordered table of guardrails and outcomes says, and past them as its enactor reports |
| Guardrails.AnswersFile | internal/rebalance/dispatch.go:49-581 | What every answer's last transition files: its action, none for an unknown one, the table's outcome, and the cooldown, none for a Move the limiter refused |
| Guardrails.AcceptedPatchIsEnacted | internal/rebalance/dispatch.go:439-581 | An adjustment of resources that passes its guardrails and whose patch is stored is recorded Enacted, with targets of zero too |
| Escalation.LegalPlanCompletes | internal/rebalance/writer.go:172-196 | Absent writer errors no transition of a plan is refused; it settles streak and escalation by its one outcome and files exactly one record in front of the history, of the cycle under way and with the promoted outcome |
| Escalation.ExecIsAfter | internal/rebalance/writer.go:119-229 | Where no transition call is disturbed, what the driver stores is the plan's steps one after another |
| Escalation.CompletedCycleIsFiled | internal/rebalance/reconciler.go:310-379 | A Reconcile that starts a cycle from the stored profile and meets no writer error stores exactly one more record and leaves the profile in Watching |
| Escalation.FailingCyclesAreCapped | internal/rebalance/reconciler.go:327-333 | A profile whose transitions are confirmed runs at most its budget of failing cycles in a row, threshold less streak, and is escalated if and only if the budget is used up, whatever failed |
| Escalation.FailingRunExtends | internal/rebalance/reconciler.go:327-333 | Short of the budget every further cycle that starts and ends failing extends the run |
| Escalation.UnreachableAgentFails | internal/rebalance/reconciler.go:484-557 | With the agent out of reach every cycle that starts on the AI path is such a cycle |
| Escalation.ClearsBuy | internal/rebalance/reconciler.go:327-333 | From a profile that escalated on its streak, a full clear buys a threshold of failing cycles and a clear of the flag alone exactly one: no more run, and at that length the profile is escalated again |
| FailureCap.FailuresAreCapped | internal/rebalance/writer.go:172-196 | In every reachable state, crashes and lost writes included, a profile with one threshold t and full clears is escalated or below t failures, has no worker and no cycle once escalated, and has begun at most t cycles since the last full clear or non-failing end |
| FailureCap.CommitsKeepCap | internal/rebalance/writer.go:172-196 | Over every run of commits, whoever made them: escalated or below the threshold, and every cycle begun since the last reset has failed or is in flight |
| FailureCap.RunsAreNeverMasked | internal/rebalance/reconciler.go:327-342 | No commit of any run ever left a profile escalated and mid-cycle |
| StaleReads.MaskedIff | internal/rebalance/writer.go:136-140 | A commit makes a profile escalated and mid-cycle if and only if it is a transition to Triggered that finds it escalated |
| StaleReads.StaleStartIsNeverRecovered | internal/rebalance/reconciler.go:310-342 | After any cycle that escalates the profile, one started from the copy from before it and then interrupted is never recovered by any later Reconcile |
| StaleReads.EscalateAnswerEscalates | internal/rebalance/dispatch.go:148-165 | Every cycle in which the agent answers Escalate is one that escalates the profile |
| Fleet.EveryRunKeepsInv | internal/rebalance/reconciler.go:310-379 | The invariants of profiles, hints and tokens hold in every reachable state over many profiles, some of them still to be migrated, with crashes and lost writes after any step |
| Fleet.RefusedIffDoomed | internal/rebalance/writer.go:136-140 | A worker's transition is refused if and only if it is the watchdog's for a profile that started on a legacy state and is in no cycle |
| Fleet.PlanAsksWhenCool | internal/rebalance/reconciler.go:368-378 | A Reconcile that will ask the agent found no cooldown left |
| FleetResults.HintOnlyWhileMoving | internal/rebalance/dispatch.go:251-272 | In every reachable state the store holds a profile's entry only while its worker runs and its stored state is Enacting a Move, and no other profile shares the key |
| FleetResults.StuckCyclesAlwaysRecover | internal/rebalance/reconciler.go:327-342 | No reachable state is escalated and mid-cycle, and from every crash point one Reconcile at or past the threshold recovers while a younger cycle is untouched |
| FleetResults.CyclesAreTimedByLog | internal/rebalance/reconciler.go:452-476 | In every reachable state a profile off rest is acted on if and only if it is enabled, not escalated, and its last committed transition or migration, as its log has it, is as old as the configured threshold |
| FleetResults.StoredStateCoversEffects | internal/rebalance/dispatch.go:243-256 | No transition of a worker is refused but the watchdog's on a legacy profile; pods and workloads are touched only while the stored state is Enacting that very action; tokens are drawn only for a real Move in Decided |
| FleetResults.EveryProfileKeepsItsAccounts | internal/rebalance/writer.go:142-214 | In every reachable state a profile's status is the function of its own log, whatever it started from, and its cycles are accounted for |
| FleetResults.EveryRealMoveSpends | internal/rebalance/dispatch.go:222-256 | Each real Move stored as Enacting spends a due grant of its own that no other move spends |
| FleetResults.MovesAreBounded | internal/rebalance/dispatch.go:210-256 | Over all profiles the real moves by time t of a process run are at most L + L*t/60 |
| Cooldown.EveryPlanIsSteady | internal/rebalance/dispatch.go:227-249 | Every ending of a plan arms the profile's cooldown except the limiter's refusal, and a plan asks the agent once at most |
| Cooldown.EveryEndingArms | internal/rebalance/reconciler.go:545-557 | The same in every reachable state for a profile that keeps one cooldown, the watchdog's and the bypass's endings included, whatever the other profiles do |
| Cooldown.NoConsultationWhileCooling | internal/rebalance/reconciler.go:368-378 | In every run nobody asks the agent before the cooldown armed last has passed |
| Cooldown.ConsultationsAreBounded | internal/rebalance/reconciler.go:368-378 | For a profile with one cooldown length c, whatever the other profiles have, at most 1 + len/c consultations whose cycles arm it start in any interval |
| Scores.NodeScoresToHostPriorities | internal/placement-server/extender.go:199-216 | The map and slice loops give one priority per node in node order, from the last score naming it or the neutral one |
| Scores.EqualPriorities | internal/placement-server/extender.go:221-227 | The fallback list equals the mapping of an empty answer |
| Scores.AdaptersAreMonotone | internal/placement-server/extender.go:187-195 | Both adapters keep the order of scores, stay in range and lose less than one step |
| Scores.PrioritiesFollowScores | internal/placement-server/extender.go:199-216 | Priorities lie in 0..10, follow the scores, and are 5 for nodes left out |
| Scores.LastDuplicateWins | internal/placement-server/extender.go:200-203 | Of several scores for one node the last counts, and only for that node |
| Scores.ScoringCycle.PreScore | scheduler-plugin/plugin.go:197-225 | Whatever the server answers, or fails to, is what Score then tells, for every node |
| Scores.ScoringCycle.Score | scheduler-plugin/plugin.go:250-272 | The clamped last score the server gave the node, and 0 for a node left out, on error, or before PreScore |
| Scores.DecisionStoreResponse | internal/placement-server/server.go:230-278 | Consumes the entry, scores target 100 and the others 0 in candidate order, and has no opinion on a miss, another action or a target that is no candidate |
| Scores.OpinionIff | internal/placement-server/server.go:240-264 | The store has an opinion if and only if a live entry moves a pod to one of the candidates, and it then scores them all in order |
| Scores.Score | internal/placement-server/server.go:188-216 | The agent is asked if and only if the store has no opinion |
| Scores.StoreHitSinglesOutTarget | internal/placement-server/server.go:248-277 | A store hit leaves the target the only top in both the extender's and the plugin's form |
| Scores.OnePlaceOnTop | scheduler-plugin/plugin.go:220-224 | With distinct candidate names exactly one place is strictly above all others |
| MoveProtocol.EveryRunKeepsInv | internal/rebalance/move_enactor.go:83-152 | In every run of moves, scorings, bindings, pod changes and time: the hint waits exactly from its put to the first scoring or the cleanup, and every new pod with a node got it through a scoring |
| MoveProtocol.SteeredPodLandsOnTarget | internal/rebalance/move_enactor.go:107-151 | The first pod scored while the hint is alive, if scored only then and with the target among its candidates, is steered and lands on the target, whatever other pods are scored before the put or afterwards; a move that sees it first is Enacted, and one that fails saw another new pod first, whose own scoring was not steered |
| MoveProtocol.SteeredIff | internal/placement-server/server.go:240-264 | In every run a scoring is answered from the store if and only if it is the first since the listing to find the hint out, not later than its time to live after the put, with the target among its candidates |
| MoveProtocol.ReplacementLandsOnTarget | internal/rebalance/move_enactor.go:107-151 | With no other scoring at all since the listing, the pod scored is the only replacement there can be, lands on the target, and a move that sees one is Enacted |
| MoveProtocol.EnactedIsReal | internal/rebalance/move_enactor.go:107-151 | In every run an Enacted move saw on the target a pod not there before, the pod seen first decides between Enacted and Failed, and at most one scoring per move was steered |
| MoveProtocol.EarlyPodMakesMoveFail | internal/rebalance/move_enactor.go:94-107 | A run in which a pod created and scored between the listing and the put is seen first, so the move is Failed although its hint was honoured |
| MoveProtocol.UnusableHintIsSpent | internal/placement-server/server.go:243-263 | A scoring without the target among its candidates spends the hint and leaves the answer to the agent |

## Left out

- Free texts (reasons, details beyond a marker, the escalated reason), Kubernetes events, metrics and logs.
- HTTP and JSON handling, the AI client, context building for the agent, webhook registration, environment parsing.
- The Kubernetes client, cache, watch mappers and list selectors: their results are arbitrary inputs.
- Two live workers on one profile, or an old leader still running: the engine relies on the work queue and leader election.
- Cancellation of the limiter's wait by a shutdown; in the fleet a crash at that point is modelled.
- The 32-bit width of the streak and of replica counts: integers are unbounded.
- NormalizeScore: the conversion of NaN or of a float beyond the range of int64 is not modelled, nor is floating-point rounding.
- Quantity parsing and printing; a quantity is empty, malformed or an integer.
- Spec validation and defaulting by the API server, deletion of profiles, deepcopy code.
- The placement reconciler's own computation of pod counts and of the overall status.
- The plugin's PreFilter and Filter, which pass the gate's verdict on; the gate itself is modelled.
- The timing of polls: loops that wait are given what each poll reads, for any number of polls.
- Listings from a cache that lags behind, in the results about pods over time (see the assumptions).
- FailingCyclesAreCapped: assumes that transitions are confirmed; `FailureCap.FailuresAreCapped` is the form for crashes and writer errors.

# Cluster stack operator: a model and its proofs

The operator keeps the addons of workload clusters at the release that the cluster's class names, and the set of
release objects at what is wanted. This project models its three hard parts and proves what they keep:

* **The addon protocol.** A persisted record (`Stages.Addon`) is stepped by two actors: the reconciler, which runs the
  stages of a hook through a phase machine that is suspended and resumed across reconciles, and the hook server, which
  Cluster API calls before an upgrade and which holds an in-memory record that a restart empties.
* **The apply and prune engine** of `pkg/kube` on an abstract workload cluster: a map from object identity to object,
  where every external call may fail, and a failed write may still have reached the object.
* **The release set**: which releases are kept, created and deleted, the latest ready one, the two name syntaxes, the
  finalizer of a release, and the admission of cluster updates.

Every failure is a parameter: `KubeFaults`, `StageFaults`, `Faults`, `Calls` hold the outcome of each external call of
one operation, so that a theorem for all parameters is one for all failures and, over a sequence of them, for all runs.

Code that changes state is there twice. The classes (`KubeClient.Client`, `ClusterAddon.AddonObject`,
`StageExecution.Session`, `Reconciler.AddonReconciler`, `HookServer.Handler`, `Deletion.ClusterStackRelease`) have the
form of the operator: fields updated in place, lists of references, loops. Each of their methods is proved equal to a
function of the old values (`Kube`, `Stages`, `Reconciling`, `Protocol`, `Deletion`), and the theorems about runs are
lemmas on those functions. Parsers, printers and the webhook are functions, as in the operator.

| file | content |
|---|---|
| `Kube.dfy`, `KubeClient.dfy` | apply, prune, delete, clean-up: as functions, and as loops over references |
| `Effects.dfy`, `Applied.dfy`, `KubeFacts.dfy` | what the operations do to a cluster; what they record and write |
| `Stages.dfy`, `StageRuns.dfy`, `StageExecution.dfy` | the phase machine; its runs; the loop with its jumps |
| `ClusterAddon.dfy`, `Reconciling.dfy`, `Reconciler.dfy` | the addon object; one reconcile as a function and as code |
| `Protocol.dfy`, `HookServer.dfy` | the whole system and its safety; the hook handlers |
| `Upgrade.dfy`, `EndState.dfy`, `Causality.dfy` | whole hook runs: convergence, end state, order of events |
| `SingleStageRuns.dfy` | whole runs of the single-stage flow |
| `Outcomes.dfy`, `Completion.dfy` | when an operation and a hook run complete |
| `SameVersion.dfy`, `Release.dfy` | the fate of an upgrade within one Kubernetes version; what a release of the upgrade means |
| `Text.dfy`, `Versions.dfy`, `ClusterStacks.dfy` | strings, versions, names |
| `Sorting.dfy`, `LatestReady.dfy`, `ReleaseDiff.dfy` | order, latest ready release, the diff |
| `Deletion.dfy`, `Webhook.dfy` | finalizer of a release; admission of updates |

## Where the code does less than it says

The model follows the code. Each of these is a lemma below, with the exact condition where there is one.

* A prune that failed is noted "to be able to retry deletion" (`pkg/kube/kube.go:233`), but a noted entry is not synced
  and only synced ones are considered, so it is never retried (`FailedPruneIsForgotten`). The note is made on the old
  entry itself, so an error later in the same call forgets it too (`ErrorForgetsFailedPrunes`).
* Entries are compared by namespace and name without the kind, so an object can stay unapplied (`SameNameHidesNewKind`):
  a finished call writes it exactly if its name was not recorded (`ApplyWritesIff`), and has it in place exactly if no
  obsolete entry has its key and it was written or in place before (`ApplyPlacesIff`).
* The values of a chart are carried on to the next one without an overwrite file when the list of new objects is built,
  but not when they are applied, so the clean-up can delete an object just applied (`AppliedButDeleted`, `ObjectLost`): of
  those that the old release has as well, exactly the ones that no apply stage renders with the carried values
  (`CleanUpDeletesIff`).
* A delete stage removes nothing from the list of release objects, for it compares freshly parsed references
  (`Reconciler.AddStage`).
* Releases in use and the latest ready one are to be kept, but their names are dotted while release names are dashed:
  they are unprotected exactly if they are not stable (`UnprotectedIff`, `UseProtectsIffStable`), and so the latest ready
  release can change by a diff (`LatestReadyLost`), exactly as `KeepsLatestReadyIff` says.
* The hook server records a hook whose patch failed; the next call can then release the upgrade (`FailedPatchReleases`).
  A call without a run since the last patch releases exactly if that patch failed on a record that claimed "applied" and
  nothing has taken the claim back (`ReleaseWithoutRunIff`).
* A single-stage upgrade to a release with the same addon version never releases its hook (`SameAddonVersionBlocks`).
* An upgrade within one Kubernetes version has one attempt: the first reconcile that proceeds.  If its run does not go
  through, the next one touches nothing and records the class as ready, with the hook still pending
  (`SuspendedIsRecordedReady`).  From the third on the reconciles run the hook of the new release upon itself
  (`SuspendedReruns`), which completes and upgrades the cluster like any other hook run (`SuspendedUpgrades`).  Exactly
  which reconciles complete a run is `CompletesIff`.  What is lost for good is the clean-up of objects that only the old
  release has: such an object stays exactly if no clean-up up to that of the one attempt has deleted it
  (`OldOnlyStaysIff`, `LeftForGood`).
* A hook completes although its charts are missing (`MissingChartsComplete`, `DoneAfterPassIff`).
* A stable version with a patch is accepted but not printed back (`StablePatchIsLost`).
* Kubernetes versions are looked up by the dotted name, which drops such a patch, so the latest ready release can come
  with the version of another one (`PatchedTakesOtherVersion`): it is its own, whatever the versions are, exactly if the
  last ready release of the name is itself maximal (`OwnVersionIff`), and with the operator's names always unless two
  ready releases differ only in such a patch (`OperatorNamesTellIff`).
* Versions of several channels in one list defeat the sort: every sorted arrangement ends with a maximum exactly if no
  two elements compare or none is of another channel than such a pair (`SortFindsMaximumIff`, `Misleading`).

## Model

| member | source | states |
|---|---|---|
| `Protocol.BlockingHookSafety` | extension/hooks.go:54-97 | in every interleaving of hook calls, restarts, class changes, reconciles and failures, every release of the upgrade while the cluster names a class follows a patch made while it named that class; every patch persisted before it was followed by a completed run, for that class unless the class changed meanwhile; and the last patch was followed by a run unless it failed on a record that claimed "applied" and nothing took the claim back |
| `Protocol.UnpatchedNeverReleases` | extension/hooks.go:71-91 | a call for a class that was not patched since the operator started patches and does not release, on any record without pending upgrade hook and whatever was patched for other classes |
| `Protocol.KeysTellApart` | extension/hooks.go:143-145 | keys of the in-memory record tell cluster, namespace and class apart, as names contain no slash |
| `Protocol.UpgradeHookSets` | extension/hooks.go:54-97 | the call before an upgrade patches exactly if the hook is not pending and its key, the name, namespace and class of the cluster, is not recorded; the key is recorded also if the patch fails; a call that does not patch releases exactly if the condition is true |
| `Protocol.ReconcileShows` | internal/controller/clusteraddon_controller.go:107-229 | a reconcile steps the record and the cluster, and what it shows is what it completed |
| `Protocol.InitHookSets` | extension/hooks.go:123-141 | the other call sets its hook and withdraws the condition exactly if it is persisted and finds another hook, and changes nothing else |
| `Protocol.ReleaseWithoutRunIff` | extension/hooks.go:71-95 | in every reachable state without a run since the last patch, a call that finds its key recorded releases exactly if that patch failed on a claim of "applied" that still stands |
| `Release.ReleaseMeansUpgraded` | extension/hooks.go:54-97 | once a persisted patch has begun a run, a call that lets the upgrade go finds the cluster upgraded with respect to its state at the patch, whatever restarts, repeated calls, failures and lost patches came between |
| `Release.CallReleasesIff` | extension/hooks.go:71-95 | after such a patch and any fair steps with one reconcile that meets no failure, the next call lets the upgrade go exactly if the operator has not restarted since; otherwise it patches again |
| `Release.SecondReleaseMeansUpgraded` | extension/hooks.go:54-97 | after a finished run, a restart and a second patch, a release finds the cluster upgraded by the first run and again, by the new release upon itself, since the second patch |
| `Release.PatchAgainBegins` | extension/hooks.go:71-91 | a patch on a finished record whose key is not recorded begins a run of the new release upon itself |
| `Release.InitCallInstalls` | extension/hooks.go:108-141 | the call after control plane initialisation on a new record begins a run that, with one reconcile without failures, finishes, and leaves the release installed |
| `Release.StepProgresses` | internal/controller/clusteraddon_controller.go:107-516 | every such step leaves the run under way, or finished with the cluster of the whole run |
| `Upgrade.FinishedRests` | internal/controller/clusteraddon_controller.go:364-389 | no reconcile with the same class touches the cluster of a finished record, or undoes its claim |
| `Upgrade.FinishedRecord` | internal/controller/clusteraddon_controller.go:349-513 | the whole record that a completed hook leaves: class, addon version, no hook, ready, applied, nothing listed, and the annotation, written once, of the hook that came first |
| `Upgrade.UnfinishedRecord` | internal/controller/clusteraddon_controller.go:349-468 | the whole record that an unfinished one leaves |
| `Upgrade.SameAddonVersionMarks` | internal/controller/clusteraddon_controller.go:366-389 | within one Kubernetes version and with the same addon version nothing runs and the class is recorded as ready |
| `Upgrade.WaitsForHook` | internal/controller/clusteraddon_controller.go:446-458 | without a pending hook other upgrades and installations touch nothing and change only the recorded version |
| `Protocol.StepKeepsInv` | internal/controller/clusteraddon_controller.go:107-516 | every step of either actor, a restart and a class change keep the system invariant from which hook safety follows |
| `Protocol.ReconcileFacts` | internal/controller/clusteraddon_controller.go:230-515 | every exit of a reconcile keeps "applied implies ready without hook", only a completed run turns the condition true, and a record that turns ready names the cluster's class |
| `Protocol.HookRunFacts` | internal/controller/clusteraddon_controller.go:393-513 | a hook run claims "applied" exactly if it completed, and otherwise stays unready with its hook |
| `Protocol.RunStagesFrame` | internal/controller/clusteraddon_controller.go:460-468 | the stage loop changes phases, tracked resources and the condition only, and never sets the condition to true |
| `Protocol.RecordInvAlways` | internal/controller/clusteraddon_controller.go:107-516 | the invariant of the record holds in every reachable state |
| `Protocol.ReadyNamesTheClass` | internal/controller/clusteraddon_controller.go:498-499 | every step of every run that turns the record ready leaves it naming the present class |
| `Protocol.FailedPatchReleases` | extension/hooks.go:79-88 | two calls release the upgrade without any run if the first patch fails and the record still claims "applied" |
| `Protocol.SameAddonVersionBlocks` | internal/controller/clusteraddon_controller.go:234-274 | no sequence of reconciles, hook calls and restarts brings the removed condition back when the addon version is the same |
| `Protocol.SingleStageCompletesIff` | internal/controller/clusteraddon_controller.go:234-296 | a fault-free single-stage reconcile after the hook completes a run exactly if class and addon version both differ |
| `HookServer.Handler.DoBeforeClusterUpgrade` | extension/hooks.go:54-97 | the handler performs the protocol's hook step on the stored record and its in-memory record, and lets the upgrade go exactly if that step releases it |
| `HookServer.Handler.DoAfterControlPlaneInitialized` | extension/hooks.go:108-141 | the handler performs the protocol's other hook step and never blocks |
| `Reconciler.AddonReconciler.Reconcile` | internal/controller/clusteraddon_controller.go:107-516 | stored record, cluster and events after the code are those of the reconcile as a function; a failed patch leaves the record |
| `Reconciler.RunSingleStage` | internal/controller/clusteraddon_controller.go:234-296 | the single-stage code equals its function on every exit |
| `SingleStageRuns.AttemptOutcome` | internal/controller/clusteraddon_controller.go:234-296 | while a chart is to be applied, for a new class and addon version or because the last attempt failed, a reconcile finishes exactly if the chart is templated and applied without error and requeue and the record persisted; the whole record in each case; if it does not finish, the next attempts again |
| `SingleStageRuns.NothingToApply` | internal/controller/clusteraddon_controller.go:276-296 | otherwise nothing is applied and the record is marked ready, with the condition it had |
| `SingleStageRuns.SingleStageConverges` | internal/controller/clusteraddon_controller.go:234-296 | a finished run, whatever failed before, has every object in place that was not recorded before it, leaves every key alone that is neither to write nor to prune, and leaves the cluster of one undisturbed call if no delete was refused |
| `SingleStageRuns.CleanReconcileFinishes` | internal/controller/clusteraddon_controller.go:234-296 | every run with one reconcile whose calls are all answered finishes |
| `Reconciler.RunMultiStage` | internal/controller/clusteraddon_controller.go:298-515 | the multi-stage code equals its function on every exit |
| `Reconciler.RunStagesOfHook` | internal/controller/clusteraddon_controller.go:393-513 | stages, lists, clean-up and completion equal the hook run as a function |
| `Reconciler.Prepare` | internal/controller/clusteraddon_controller.go:349-385 | the resets before the stages equal their function of the old record |
| `Reconciler.Complete` | internal/controller/clusteraddon_controller.go:491-513 | the record of a completed hook |
| `Reconciler.TemplateAndApply` | internal/controller/clusteraddon_controller.go:740-764 | record and cluster after the call, including the entries that a failing call has already marked in place |
| `Reconciler.RecordUpgrade` | internal/controller/clusteraddon_controller.go:240-271 | the record after each outcome of applying a new addon version |
| `Reconciler.RecordRetry` | internal/controller/clusteraddon_controller.go:276-295 | the record after each outcome of a repeated attempt |
| `Reconciler.AddStage` | internal/controller/clusteraddon_controller.go:526-546 | an apply stage adds the rendered entries, a delete stage leaves the list's entries as they are |
| `Reconciler.RemoveResources` | internal/controller/clusteraddon_controller.go:1407-1423 | the elements that are not, by identity, among the removed ones, in order |
| `Reconciler.DisjointRemovesNothing` | internal/controller/clusteraddon_controller.go:1407-1423 | removing references of another origin removes nothing, whatever their values |
| `Reconciler.ReleaseObjects` | internal/controller/clusteraddon_controller.go:518-550 | the listed entries are those of the apply stages, each rendered with the values last built |
| `Reconciler.GetNewReleaseObjects` | internal/controller/clusteraddon_controller.go:518-550 | new entries whose values are the list of the new release |
| `Reconciler.GetOldReleaseObjects` | internal/controller/clusteraddon_controller.go:553-626 | new entries whose values are the list of the old release, by the new configuration's stages |
| `Reconciler.CleanUp` | internal/controller/clusteraddon_controller.go:472-489 | cluster and verdict after the lists are built and the extra objects deleted |
| `StageExecution.Session.Execute` | internal/controller/clusteraddon_controller.go:766-937 | the loop with its jumps ends, and ends in the state and with the outcome of the recursive phase machine |
| `StageExecution.Session.Switch` | internal/controller/clusteraddon_controller.go:783-934 | one turn of the switch equals one round of the phase machine |
| `StageExecution.Session.PreCondition` | internal/controller/clusteraddon_controller.go:785-812 | state and outcome for a condition that matches, does not match, or cannot be evaluated |
| `StageExecution.Session.ApplyCharts` | internal/controller/clusteraddon_controller.go:814-862 | record, cluster and outcome of an apply action in each of its exits |
| `StageExecution.Session.DeleteCharts` | internal/controller/clusteraddon_controller.go:864-907 | record, cluster and outcome of a delete action in each of its exits |
| `StageExecution.Session.PostCondition` | internal/controller/clusteraddon_controller.go:909-933 | state and outcome of the post-condition, with the stage done only if it matched |
| `StageExecution.Session.ExecuteAll` | internal/controller/clusteraddon_controller.go:460-468 | the loop over the stages stops at the first requeue or error, with the state reached |
| `ClusterAddon.AddonObject.GetStagePhase` | api/v1alpha1/clusteraddon_types.go:136-145 | the phase of the first entry with the key |
| `ClusterAddon.AddonObject.SetStagePhase` | api/v1alpha1/clusteraddon_types.go:148-154 | every entry with the key, and no other, has the new phase |
| `ClusterAddon.AddonObject.SetStageAnnotations` | api/v1alpha1/clusteraddon_types.go:157-165 | the first value written stays |
| `ClusterAddon.AddonObject.HasStageAnnotation` | api/v1alpha1/clusteraddon_types.go:168-175 | true exactly for the value written |
| `ClusterAddon.AddonObject.ResetStages` | internal/controller/clusteraddon_controller.go:354-359 | one pending entry per configured stage, in order |
| `Stages.GetAfterSet` | api/v1alpha1/clusteraddon_types.go:136-154 | reading after writing a phase: the new phase if the key is listed, and nothing else changes |
| `Stages.JumpRaisesRank` | internal/controller/clusteraddon_controller.go:783-908 | every jump back to the switch raises the rank of the phase, so the loop ends |
| `StageRuns.SharedPhases` | api/v1alpha1/clusteraddon_types.go:136-154 | entries with the same key share a phase from initialisation on, and then each has the phase that is read |
| `StageRuns.ListRefinesMap` | api/v1alpha1/clusteraddon_types.go:136-154 | first-match reading and update-all writing are lookup and update of a plain map |
| `StageRuns.CheckAt` | internal/controller/clusteraddon_controller.go:766-937 | one execution moves the phase of its own entry only, never back, and says exactly when the stage becomes done |
| `StageRuns.CheckLeaves` | internal/controller/clusteraddon_controller.go:814-907 | a refused apply turns the condition false, a successful one removes it, a delete leaves it; a successful action forgets the tracked resources; nothing else in a stage touches either |
| `StageRuns.DoneAfterPassIff` | internal/controller/clusteraddon_controller.go:770-780 | after a pass that continues to the end a stage is done exactly if it was, or its chart exists and was templated unless its action had succeeded before |
| `Completion.CheckIff` | internal/controller/clusteraddon_controller.go:766-937 | an execution continues exactly if what its phase has still to wait for and to do goes well |
| `Completion.PassIff` | internal/controller/clusteraddon_controller.go:460-468 | a pass continues to its end exactly if no stage whose chart is there is an obstacle, by the phases before the pass |
| `Completion.HookRunIff` | internal/controller/clusteraddon_controller.go:393-513 | a hook run finishes exactly if its pass goes through and, for an upgrade, both lists are built and every extra object is deleted |
| `Completion.HookFinishesIff` | internal/controller/clusteraddon_controller.go:298-515 | a reconcile of a pending hook finishes its run exactly if it gets to the stages, the run goes through and the record is patched |
| `StageRuns.PassAdvances` | internal/controller/clusteraddon_controller.go:460-468 | no phase falls back in a pass over the stages |
| `Upgrade.PrefixShapeAlways` | internal/controller/clusteraddon_controller.go:349-468 | in every state of every run the phases read done, at most one in progress, then pending |
| `Upgrade.PassKeepsShape` | internal/controller/clusteraddon_controller.go:460-468 | a pass keeps the prefix shape and does part of what is ahead, so that the rest still leads to the same cluster |
| `Upgrade.ReconcileStep` | internal/controller/clusteraddon_controller.go:298-515 | a reconcile in mid-run either finishes in the cluster of the whole run or keeps the invariant, also if its patch is lost |
| `Upgrade.RunConverges` | internal/controller/clusteraddon_controller.go:460-513 | a finished run leaves the cluster that all stages once, in order, and the clean-up would, however often it failed half-way or was suspended |
| `Upgrade.FaultFreeFinishes` | internal/controller/clusteraddon_controller.go:460-513 | from every state of a hook run one reconcile without failures finishes it |
| `Upgrade.BoundedCompletion` | internal/controller/clusteraddon_controller.go:460-513 | if at most F reconciles meet a failure, F+1 reconciles finish the run |
| `Upgrade.PhasesNeverFallBack` | internal/controller/clusteraddon_controller.go:460-468 | until the run finishes no persisted reconcile lowers the phase of any stage |
| `Upgrade.SameVersionConverges` | internal/controller/clusteraddon_controller.go:393-444 | an upgrade within a Kubernetes version that finishes leaves the cluster of the whole run; when it finishes is stated by `Completion.SameVersionFinishesIff` |
| `Completion.SameVersionFaultFreeFinishes` | internal/controller/clusteraddon_controller.go:393-444 | one reconcile without failures finishes an upgrade within a Kubernetes version |
| `Completion.SameVersionFinishesIff` | internal/controller/clusteraddon_controller.go:393-513 | its first reconcile finishes it exactly if every stage whose chart is there has its conditions matched and its requests answered where they are still due, and every request of the clean-up is answered |
| `SameVersion.CompletesIff` | internal/controller/clusteraddon_controller.go:349-515 | after any reconciles with any failures, exactly when the next one completes a run: the first that proceeds if the run from the old release goes through, then none if it did, the second never, and any later one if the pending hook of the new release goes through from the phases reached |
| `SameVersion.CompleteAtFirst` | internal/controller/clusteraddon_controller.go:364-444 | if the first proceeding reconcile goes through, the record rests and no later reconcile touches the cluster |
| `SameVersion.UpgradedAtFirst` | internal/controller/clusteraddon_controller.go:393-444 | and then the cluster is upgraded with respect to its state before all attempts, also those whose record was lost |
| `SameVersion.SuspendedReruns` | internal/controller/clusteraddon_controller.go:349-444 | if it does not, the second touches nothing and leaves the hook pending on a record that names the class, and all later ones are the hook run of the new release upon itself |
| `SameVersion.SuspendedUpgrades` | internal/controller/clusteraddon_controller.go:349-444 | that run is complete after one reconcile without failures, and once complete the cluster is upgraded by the new release with respect to what the first attempt left |
| `SameVersion.NamesClassAfterTwo` | internal/controller/clusteraddon_controller.go:364-389 | after two reconciles that proceed the record names the new class for good, whatever failed |
| `Completion.ReconcileTouches` | internal/controller/clusteraddon_controller.go:393-515 | a reconcile touches no key that neither a stage nor the clean-up of its releases can touch |
| `SameVersion.LeftForGood` | internal/controller/clusteraddon_controller.go:364-444 | what the first attempt left under a key that the new release spares no later reconcile touches, finished or not |
| `SameVersion.OldOnlyStaysIff` | internal/controller/clusteraddon_controller.go:364-444 | an object that only the clean-up of the upgrade deletes and that the new release spares is there after any number of reconciles exactly if it was there before and no clean-up up to that of the first proceeding one deleted it |
| `SameVersion.ThroughDeletes` | internal/controller/clusteraddon_controller.go:414-433 | an attempt that goes through deletes whatever the old list has and the new one lacks |
| `Completion.HookRunKeepsIff` | internal/controller/clusteraddon_controller.go:460-489 | exactly when a key that no stage touches is there after an upgrade run, finished or not, by the outcomes of its stages and requests |
| `Upgrade.SuspendedIsRecordedReady` | internal/controller/clusteraddon_controller.go:364-389 | if its first reconcile does not finish, the next one touches nothing, completes nothing, records the class as ready, and leaves the hook pending |
| `EndState.UpgradeEndState` | internal/controller/clusteraddon_controller.go:460-513 | after a finished upgrade: the objects of last apply stages are there as rendered and labelled unless superseded; those of the old charts that the new ones do not name, those of last delete stages and all superseded keys are gone; every other object is as before. Superseded is what the old release lists, by the stages of its installation if the annotation is "created" and by its upgrade stages otherwise, and the new one does not list |
| `EndState.InstallEndState` | internal/controller/clusteraddon_controller.go:460-513 | after a finished installation: the same for the stages of the other hook, and nothing is superseded |
| `EndState.InstallationIsListed` | internal/controller/clusteraddon_controller.go:594-626 | after an installation a later upgrade takes for the old list what the installation stages of its configuration list |
| `EndState.RunRecord` | internal/controller/clusteraddon_controller.go:491-513 | the whole record at the end of a run |
| `EndState.OldListedIff` | internal/controller/clusteraddon_controller.go:553-626 | the old list holds exactly the entries of the stages that the annotation stands for, or of the whole old chart if the old release has no configuration |
| `EndState.SupersededIff` | internal/controller/clusteraddon_controller.go:628-660 | the clean-up deletes exactly the superseded keys: the namespace of an entry counts, and "kube-system" only without one |
| `EndState.InForceIff` | internal/controller/clusteraddon_controller.go:526-546 | the values carried to a stage are those of the last one with an overwrite file up to it |
| `EndState.SameObjectIff` | pkg/kube/helpers.go:197-223 | two objects have one key exactly if group, kind and name are the same |
| `EndState.SameVersionEndState` | internal/controller/clusteraddon_controller.go:393-444 | a reconcile that proceeds with an upgrade within one Kubernetes version finishes exactly if no stage is an obstacle and the clean-up goes through, and then leaves the same end state |
| `EndState.CleanUpSparesNewObjects` | internal/controller/clusteraddon_controller.go:628-660 | an object of an apply stage that carries no values but its own is not superseded, if an old entry under its key is the same entry, API version included |
| `EndState.ListedIff` | internal/controller/clusteraddon_controller.go:518-550 | the list of a release holds exactly what its apply stages render with the values carried to them |
| `EndState.CleanUpDeletesIff` | internal/controller/clusteraddon_controller.go:518-660 | of the objects that the old release has as well the clean-up deletes exactly those that no apply stage renders with carried values |
| `EndState.AppliedButDeleted` | internal/controller/clusteraddon_controller.go:472-489 | an object of a last apply stage that the stages alone would leave in place is gone at the end of every finished run, if the old list has it and no apply stage renders it with carried values |
| `EndState.ObjectLost` | internal/controller/clusteraddon_controller.go:460-550 | a concrete upgrade that from every cluster and without any failure finishes in one reconcile and loses an object that its last apply stage renders |
| `EndState.CarriedValuesHide` | internal/controller/clusteraddon_controller.go:518-550 | with its charts an object is applied and in the old list, and not in the new one |
| `Causality.StageCausality` | internal/controller/clusteraddon_controller.go:783-934 | in every run of persisted records no action precedes its pre-condition, no stage is done before its action and then its post-condition, no action succeeds twice, and in a completed run without skips each succeeds once |
| `Causality.MissingChartsComplete` | internal/controller/clusteraddon_controller.go:769-780 | with all charts missing a hook completes in one reconcile and no action |
| `Kube.Lookup` | pkg/kube/helpers.go:123-130 | the entry kept for a name is one of that name, and there is none exactly if no entry has it |
| `Kube.Obsolete` | pkg/kube/helpers.go:225-252 | holds exactly the synced entries whose name the template lacks |
| `Kube.Pruned` | pkg/kube/helpers.go:254-275 | holds exactly the old objects whose name the template lacks |
| `Kube.Extra` | internal/controller/clusteraddon_controller.go:630-641 | holds exactly the old entries that are not, as whole values, new ones |
| `KubeFacts.ApplyNewPrunesExactly` | pkg/kube/kube.go:111-129 | the deletes attempted are, in order, those of the old objects that the new template does not name; all of them unless the call errs |
| `KubeFacts.ApplyPrunesExactly` | pkg/kube/kube.go:219-239 | the deletes attempted are, in order, those of the synced entries that the template does not name; all of them unless the call errs |
| `KubeFacts.ApplyListFollowsTemplate` | pkg/kube/kube.go:166-242 | without error and requeue the list is all synced and follows the template in order |
| `KubeFacts.ApplyFixpoint` | pkg/kube/kube.go:174-242 | a further call with that list sends no request and returns the same list and cluster |
| `KubeFacts.ApplyRecordsExactly` | pkg/kube/kube.go:175-213 | which objects are recorded as synced after any call |
| `KubeFacts.OutstandingNeverGrows` | pkg/kube/kube.go:175-213 | over any calls and failures, errors included, the objects not yet recorded only become fewer |
| `KubeFacts.SyncedIsNeverReapplied` | pkg/kube/kube.go:178-182 | after any calls and failures, a call writes only objects that were not recorded as synced before them |
| `KubeFacts.FailedPruneIsForgotten` | pkg/kube/kube.go:233-238 | after a call without error a further one deletes nothing, also where a delete had failed |
| `KubeFacts.ErrorForgetsFailedPrunes` | pkg/kube/kube.go:224-238 | after an error the list that the record keeps no longer leads to the delete that had failed |
| `KubeFacts.LeftoverMarksIff` | pkg/kube/kube.go:219-239 | which entries of the old list an error leaves marked: those whose delete was sent and refused |
| `KubeFacts.RefusedMayReach` | pkg/kube/kube.go:98-236 | a refused write or delete may have reached the object; without interface nothing is sent |
| `KubeFacts.EntryAfterCall` | pkg/kube/kube.go:184-213 | what the tracked list says of an object after a call |
| `KubeFacts.RefusedIsReportedSynced` | pkg/kube/kube.go:83-164 | the lists of the other two operations say "synced" also of objects that were refused |
| `KubeFacts.PrunedInOrder` | pkg/kube/helpers.go:254-275 | the pruned objects are, in order, those at exactly the positions whose namespace and name the template lacks |
| `KubeFacts.ObsoleteInOrder` | pkg/kube/helpers.go:225-252 | the same for the synced entries |
| `KubeFacts.ExtraInOrder` | internal/controller/clusteraddon_controller.go:630-641 | the same for the entries to clean up |
| `KubeFacts.SameNameHidesNewKind` | pkg/kube/kube.go:176-182 | a finished call can leave an object unapplied because another kind has its name |
| `Applied.ApplyFacts` | pkg/kube/kube.go:166-242 | a call touches only keys of objects not recorded and of obsolete entries; without error and requeue the former are in place, the latter gone, the rest framed |
| `Applied.ApplyLeaves` | pkg/kube/kube.go:166-242 | what a finished call leaves under the key of any template object: nothing, the object, or what was there |
| `Applied.ApplyPlacesIff` | pkg/kube/kube.go:166-242 | exactly when a finished call has a template object in place |
| `Applied.ApplyWritesIff` | pkg/kube/kube.go:175-213 | a finished call writes a template object exactly if its name was not recorded as synced |
| `Effects.ApplyNewFacts` | pkg/kube/kube.go:70-132 | a call touches only keys of the two templates; without error and requeue the new objects are in place, the old-only ones gone, the rest framed |
| `Effects.DeleteNewFacts` | pkg/kube/kube.go:134-164 | a call touches only keys of its template; without error and requeue they are gone and the rest is framed |
| `Effects.CleanUpFacts` | internal/controller/clusteraddon_controller.go:628-660 | the clean-up touches only keys of extra resources; without error and requeue they are gone and the rest is framed |
| `Effects.RetriesConverge` | pkg/kube/kube.go:83-129 | whatever calls failed before, one without error and requeue leaves the cluster it would have left at first |
| `Outcomes.ActionIff` | pkg/kube/kube.go:70-164 | an action goes through exactly if the templates parse and every apply and every due delete is answered |
| `KubeClient.GetResourceMap` | pkg/kube/helpers.go:123-130 | the map holds a reference to the last entry of each name |
| `KubeClient.ToBeDeleted` | pkg/kube/helpers.go:225-252 | references into the old list to exactly its obsolete entries, in order, with their positions |
| `KubeClient.ToBeDeletedFromObjects` | pkg/kube/helpers.go:254-275 | exactly the old objects not named any more, in order |
| `KubeClient.Client.ApplyNewClusterStack` | pkg/kube/kube.go:70-132 | cluster, requests, new entries and verdict of the loops equal the operation as a function; an error comes with neither list nor requeue |
| `KubeClient.Client.DeleteNewClusterStack` | pkg/kube/kube.go:134-164 | the same for the delete operation |
| `KubeClient.Client.Apply` | pkg/kube/kube.go:166-242 | the same for the apply with tracked entries, and what the old list has become by marks in place |
| `KubeClient.Client.CleanUpResources` | internal/controller/clusteraddon_controller.go:628-660 | cluster, requests and verdict of the clean-up equal the operation as a function |
| `KubeClient.ExtraResources` | internal/controller/clusteraddon_controller.go:630-641 | the old entries that are not, as values, among the new ones, in order |
| `ReleaseDiff.MakeDiff` | internal/controller/clusterstack_controller.go:460-512 | what is deleted is what nothing wants, in order; what is created begins with what is kept, in order, and goes on with one new object per missing name |
| `ReleaseDiff.DiffPartition` | internal/controller/clusterstack_controller.go:460-512 | kept and deleted positions partition the existing list in order, nothing wanted is deleted, and the created names are the wanted existing ones, the latest and those of the spec |
| `ReleaseDiff.KeepOrDelete` | internal/controller/clusterstack_controller.go:467-492 | the first loop splits the list by wanted or not and remembers the kept names |
| `ReleaseDiff.AddFromSpec` | internal/controller/clusterstack_controller.go:503-509 | one new object for every name of the spec that was not found, each once |
| `ReleaseDiff.DiffConverges` | internal/controller/clusterstack_controller.go:162-218 | after a diff is carried out a second one deletes nothing and lists exactly what is there, and the latest ready release is the same exactly if the diff keeps it |
| `ReleaseDiff.SameLatestReadyIff` | internal/controller/clusterstack_controller.go:516-546 | the latest ready release of the survivors is that before the diff exactly if the diff keeps it |
| `ReleaseDiff.KeepsLatestReadyIff` | internal/controller/clusterstack_controller.go:477-486 | it is kept exactly if none is ready, or the maximum is stable, the latest, in the spec or in use under its own name |
| `ReleaseDiff.WellNamedUnambiguous` | internal/controller/clusterstack_controller.go:516-546 | well-named releases with distinct names, of which the ready ones have distinct versions, meet the premise, stable or not |
| `ReleaseDiff.LatestReadyLost` | internal/controller/clusterstack_controller.go:477-486 | for every version that is not stable: a list whose only ready release the diff deletes |
| `ReleaseDiff.UnprotectedIff` | internal/controller/clusterstack_controller.go:477-486 | a release in use or latest ready is deleted exactly if it is not stable and neither the latest nor in the spec |
| `ReleaseDiff.UsedButDeleted` | internal/controller/clusterstack_controller.go:482-486 | a concrete release that is in use and deleted |
| `ReleaseDiff.DottedIffStable` | internal/controller/clusterstack_controller.go:541-543 | the dotted name of a release is its own name exactly if it is stable |
| `ReleaseDiff.GetLatestRemote` | internal/controller/clusterstack_controller.go:548-571 | the name of a matching tag such that none has a greater major, or the same and a greater patch, and none exactly if no tag matches |
| `ReleaseDiff.GetInSpec` | internal/controller/clusterstack_controller.go:587-599 | the names of exactly the listed versions, and an error exactly if one is malformed |
| `ReleaseDiff.MatchesIff` | internal/controller/clusterstack_controller.go:548-571 | the release name of a cluster stack matches a spec exactly if provider, name, channel and printed Kubernetes version are those of the spec |
| `ReleaseDiff.NamedIff` | pkg/clusterstack/clusterstack.go:157-201 | exactly which versions of a spec have a name |
| `ReleaseDiff.SpecNameMeans` | internal/controller/clusterstack_controller.go:587-599 | that name is read back as the release of the provider, name and Kubernetes version of the spec and of that version |
| `LatestReady.GetLatestReady` | internal/controller/clusterstack_controller.go:516-546 | an error exactly if a ready name does not parse, none exactly if none is ready, otherwise a ready release of a single channel such that no ready one has a greater major, or the same and a greater patch; with its own Kubernetes version if names tell versions, and in any case with that of the last ready release of the name |
| `LatestReady.OwnVersionIff` | internal/controller/clusterstack_controller.go:521-545 | whatever the Kubernetes versions are, the one returned is that of a maximal ready release of the name exactly if the last ready release of the name is maximal |
| `LatestReady.OperatorNamesTellIff` | pkg/clusterstack/clusterstack.go:203-212 | names of the operator tell versions exactly if no two ready releases differ only in the patch of a stable version |
| `LatestReady.WellNamedTell` | pkg/clusterstack/clusterstack.go:109-153 | well-named ready releases always tell versions, and no two of different names share a dotted name |
| `LatestReady.PatchedTakesOtherVersion` | internal/controller/clusterstack_controller.go:521-545 | for every stable version: with a patched one before it in the list, the patched one is the latest ready and comes with the Kubernetes version of the other |
| `LatestReady.CollectReady` | internal/controller/clusterstack_controller.go:521-531 | the ready releases parsed, in order, and the last Kubernetes version of each dotted name |
| `Sorting.Sort` | internal/controller/clusterstack_controller.go:538-539 | the slice is permuted and no element is less than its left neighbour |
| `Sorting.Less` | pkg/clusterstack/sort.go:30-43 | true exactly if the versions compare as smaller; incomparable ones answer false |
| `Sorting.Swap` | pkg/clusterstack/sort.go:25-27 | exchanges two elements in place and nothing else |
| `Sorting.LastIsMaximum` | internal/controller/clusterstack_controller.go:539-542 | in a sorted slice of one channel no element is greater than the last |
| `Sorting.SortFindsMaximumIff` | pkg/clusterstack/sort.go:30-43 | every sorted arrangement of a list ends with a maximum exactly if no element is of another channel than a pair that compares |
| `Sorting.Misleading` | pkg/clusterstack/sort.go:30-43 | for every list with a pair that compares and an element of another channel, a sorted arrangement that ends below its maximum |
| `Sorting.Latest` | pkg/clusterstack/clusterstacks.go:35-40 | one of the given stacks, and a maximum of those lists for which every sorted arrangement ends with one |
| `Versions.CompareLaws` | pkg/version/version.go:186-208 | within a channel the comparison is antisymmetric, transitive and zero only on equal versions |
| `Versions.CompareIff` | pkg/version/version.go:186-208 | the greater version is the one with the greater major, or the same and the patch that comes later in dictionary order; versions of two channels are not compared |
| `Versions.AcceptedIff` | pkg/version/version.go:43-134 | exactly which strings each syntax accepts, by their characters |
| `Versions.WrittenIsRead` | pkg/version/version.go:43-134 | and as which version each is read |
| `Versions.VersionRoundTrips` | pkg/version/version.go:43-134 | printing and parsing, dashed or dotted, gives a version back exactly if it is printable |
| `Versions.PrintingIsInjective` | pkg/version/version.go:213-229 | neither syntax writes two printable versions alike |
| `Versions.StablePatchIsLost` | pkg/version/version.go:213-229 | channel stable with a patch is accepted and its patch dropped |
| `Versions.ParsersReturnParsed` | pkg/version/version.go:43-134 | what either parser can return |
| `ClusterStacks.ClassRoundTrip` | pkg/clusterstack/clusterstack.go:61-105 | the class syntax gives back exactly the canonical cluster stacks |
| `ClusterStacks.ReleaseRoundTrip` | pkg/clusterstack/clusterstack.go:109-153 | the release syntax gives back exactly the same cluster stacks |
| `ClusterStacks.NamesAreInjective` | pkg/clusterstack/clusterstack.go:203-212 | neither name is shared by two canonical cluster stacks |
| `ClusterStacks.NamesCoincideIffStable` | pkg/clusterstack/clusterstack.go:203-212 | the two names of a canonical cluster stack are equal exactly for stable versions |
| `ClusterStacks.ClassNamesMeetIff` | pkg/clusterstack/clusterstack.go:203-212 | parsed cluster stacks share their class name exactly if they differ at most in the patch of a stable version |
| `ClusterStacks.KubernetesRoundTrip` | pkg/kubernetesversion/kubernetesversion.go:63-104 | a Kubernetes version is read back exactly if its numbers are in range |
| `ClusterStacks.ConversionCommutesIff` | pkg/release/release.go:110-118 | the release parser gives the same cluster stack for the converted class name exactly if the name has no dot but that of its version |
| `ClusterStacks.CanonicalConversion` | pkg/release/release.go:110-118 | conversion turns the class name of a canonical cluster stack into its release name |
| `ClusterStacks.ReleaseTagAgrees` | pkg/version/version.go:137-148 | the version of an accepted tag is the one that the release parser finds |
| `Deletion.ClusterStackRelease.Reconcile` | internal/controller/clusterstackrelease_controller.go:72-212 | the object after every exit, the deferred block included |
| `Deletion.ClusterStackRelease.ReconcileDelete` | internal/controller/clusterstackrelease_controller.go:215-242 | the finalizer goes exactly if no listed class equals the name and the charts were deleted without error or requeue |
| `Deletion.GoesIff` | internal/controller/clusterstackrelease_controller.go:89-105 | a reconcile removes an object exactly if it is persisted, marked, and its assets fail, or the classes of all clusters were listed without its name and its charts were templated and removed to the end |
| `Deletion.DeletionGuard` | internal/controller/clusterstackrelease_controller.go:72-242 | in every run that ends without the object there is the one step it went in: a deletion request before a finalizer was persisted, or a persisted reconcile of a marked object whose assets failed or whose name was on no listed cluster and whose charts were removed to the end |
| `Deletion.FinalizerStays` | internal/controller/clusterstackrelease_controller.go:104-104 | an object that is still there has kept its finalizer |
| `Deletion.UseProtectsIffStable` | internal/controller/clusterstackrelease_controller.go:215-225 | with some cluster on its class a marked release stays exactly if it is stable |
| `Deletion.StepLeaves` | internal/controller/clusterstackrelease_controller.go:104-212 | status and conditions after each outcome of a reconcile |
| `Deletion.ReadyIff` | internal/controller/clusterstackrelease_controller.go:164-212 | over any run a release is ready exactly if some persisted reconcile before its deletion found assets and provider ready and applied its chart completely |
| `Deletion.KubernetesIs` | internal/controller/clusterstackrelease_controller.go:170-172 | over any run its Kubernetes version is that of the last reconcile that found its assets |
| `Webhook.AdmittedIff` | api/v1alpha1/cluster_webhook.go:66-142 | exactly which updates are admitted and which are warned about: without a known release any update is, otherwise those with the version of the release that continue the cluster stack |
| `Webhook.CreateAdmittedIff` | api/v1alpha1/cluster_webhook.go:54-61 | exactly which new clusters are admitted and which are warned about |
| `Webhook.NoClassNoAdmission` | api/v1alpha1/cluster_webhook.go:120-127 | without a topology or a class in it nothing is admitted, and no warning given |
| `Webhook.FaultsAre` | api/v1alpha1/cluster_webhook.go:92-110 | which complaints an update gets |
| `Webhook.ClassesContinue` | api/v1alpha1/cluster_webhook.go:66-142 | over any admitted updates with known releases provider and stack name stay, the Kubernetes minor version does not fall and rises by at most the number of updates, and each state has the version that its release had then |

## Left out

- Helm, Go templates, tar archives, YAML and CEL: rendering is an uninterpreted function, evaluation and parsing are outcomes.
- Kubernetes clients, REST mapping, watches, events, logging and main.go: plumbing; a patch is one atomic write of the record, and a server-side apply replaces the object under its key.
- Field ownership and merging of a server-side apply, and the exact labels of setLabel: an applied object carries one mark.
- Conditions that no decision reads, severities and messages, and the results (requeue delay or error) that only schedule the next reconcile.
- The finalizer of a ClusterAddon and its deletion: no decision of the protocol depends on it.
- downloadOldClusterStackRelease with neither release nor error, and a failing patch helper in the hook handlers: both dereference nil.
- kube.Delete and the ClusterStackRelease templates: outcomes of the deletion guard.
- GitHub and OCI clients, credentials and downloads: assets are available or not.
- The other webhooks, Metadata.Validate, Summary, provider objects: shallow.
- Locks and concurrent reconciles of one object: the controller runtime serialises them; actors interleave between whole calls.
- Protocol.BlockingHookSafety: covers one cluster and its addon record, which others do not disturb as KeysTellApart says; a failed patch is promised a run only where ReleaseWithoutRunIff says so.
- Release.ReleaseMeansUpgraded: for a run without a change of class or of the releases found, with every chart there, and without another patch before the release.
- SameVersion.CompletesIff: for multi-stage releases of one class, found anew by every reconcile under the name that the record has.
- SameVersion.OldOnlyStaysIff: for keys that no stage of the upgrade touches; of the others LeftForGood says that what the first attempt left stays.
- Upgrade.RunConverges: for distinct stages whose charts exist and can be templated, and a pending hook: with a change of the Kubernetes version, or the upgrade hook on a record that names the class; for an upgrade within one Kubernetes version see SameVersion. The hook after control plane initialisation on a record with an old release of the same Kubernetes version, where the code runs the stages of the other hook on its entries, is covered by ReconcileFacts only.
- SingleStageRuns.SingleStageConverges: for charts whose objects differ in namespace and name and share no key, with each other or with an entry to prune; a refused delete is forgotten, as FailedPruneIsForgotten says.
- Upgrade.BoundedCompletion: counts reconciles that meet a failure, of which a reconcile can meet several.
- EndState.UpgradeEndState: that new objects are in place needs charts that are disjoint and spell an object's namespace alike; what the clean-up deletes in spite of that is part of the statement.
- ReleaseDiff.DiffConverges: for releases of one channel that are told apart, as all well-named ones with distinct versions are.
- LatestReady.GetLatestReady: maximality for one channel only, since versions of several are not ordered.
- Sorting.Sort: the insertion sort that the standard library uses on at most twelve elements; its other strategies are not modelled.
- Webhook.ClassesContinue: the major Kubernetes version is not compared by the code, and nothing is claimed about it.
- KubeClient.Client.Apply: the entries of the old list are distinct objects, as decoding makes them.
- String comparison of patches is by character, equal to that by bytes on the word characters that the patterns admit.

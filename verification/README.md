# Verification of the Infinispan operator's reconcile loops

The operator drives an Infinispan cluster by running a list of handlers over and over. Each handler reads stored state
(the custom resource, the StatefulSet, services), makes a few API calls, and may be cut off after any of them; the next
run starts again from what is stored. This project models those loops as step machines in which every call may succeed,
fail without effect, or take effect and still report an error, and proves what every run keeps.

## Parts

- **Shutdown upgrades and restarts**: `ShutdownModel` (state, handlers, pipeline, environment), `ShutdownPodsProofs` (the
  two loops over the pods), `ShutdownSafety` (the invariant and the safety theorems), `ShutdownLiveness` (a measure that
  decreases, and the states in which it cannot), `ShutdownRelease` (which release, image and size an upgrade ends on),
  `ShutdownReports` (what a run reports about its calls), `ShutdownLimits` and `ShutdownWindows` (where the code falls
  short, and when exactly), `ShutdownOperator` (the handlers as methods with loops, proved equal to the model), with `FlowControl`,
  `Operands` and `WellFormed` beneath them.
- **Hot Rod rolling upgrades**: `HotRodModel`, `HotRodScripts` (interrupted and completed scripts of calls),
  `HotRodSafety`, `HotRodFinish` (retry confluence of cleanup and rollback), `HotRodProgress` (an undisturbed upgrade
  finishes), `HotRodRelease` (the release it ends on), `HotRodIdle` (runs outside
  an upgrade, and stopped ones), `HotRodOperator` (methods), with `CacheMigration`, `CacheNames` and `FreshNames`.
- **Cache and Schema synchronisation**: `CacheSync`, `CacheSyncProofs`, `CacheStrategies` (when data are removed, what
  Ready stands for, how either side follows the other), `CacheReconciler` (methods and the retry loops of the ConfigListener), `SchemaAdmission`, `SchemaController`, `SchemaSync`, `SchemaReconciler`.
- **StatefulSet convergence**: `NamedLists`, `PodTemplate`, `RollingConvergence`, `PodEffects` (what is found under
  every name afterwards), `StatefulSetUpdater` (methods).
- **Zero-capacity jobs**: `ZeroCapacity`, `ZeroController` (methods).
- **The pipeline context**: `CompareAndSet` (why a run may be taken as one step), `PodFilter`.

In each part pure functions give the meaning of one reconciliation, lemmas state what sequences of them keep, and a class
carries the imperative code, every method proved to compute the function of the same name.

## What the environment is assumed to do

- One reconciliation of a cluster is one step: `CompareAndSet.RunsAreAtomic` proves that a run interleaved with edits of
  the custom resource ends as an undisturbed one, cut off at its first update after an edit and followed by the edits. An
  update compares the stored version with the one the run last saw and then sends up to two patches, of the spec and of
  the status, either of which may fail or get lost; the patches themselves carry no version. It is assumed that no edit
  falls between the comparison and the patches; what such an edit would meet is `EditInTheWindowSurvivesWhen`. Of the
  updates of a Shutdown upgrade only two change both parts, and there the two patches are modelled one by one.
- What the StatefulSet controller and the pods do falls between runs. Fetching and patching a Cache, Schema, Backup or
  Restore is one step, its metadata, spec and status being written together.
- Shutdown upgrades (`ShutdownModel.Legal`): the user does not raise the replicas while Stopping is True; in three windows
  after an upgrade or a restart the user leaves them alone (0 being allowed in two of them); and between the resume and
  the scale up the user asks for nothing that requires an upgrade. What happens otherwise: `RaisedWhileStoppingStalls`,
  `RebuildFollowsTheSpec` and `UpgradeAfterResumeIsEmpty` in `ShutdownLimits`, `ReplicasAreConservedWhen` and
  `RebalanceIsSkippedWhen` in `ShutdownWindows`. A stopped server keeps answering STOPPING or TERMINATED, and its pod is
  not replaced while the shutdown lasts; the StatefulSet reports no pod only when there is none. The set of known operands
  is fixed.
- Hot Rod upgrades (`HotRodModel.Legal`): the request is not changed again during a rollback, and no rollback is asked for
  in the Cleanup stage; what such a rollback does is stated in `HotRodFinish`. Upgrade type and expose type do not change.
- Recreation of caches (`CacheSyncProofs.Disciplined`): the listener has seen every remove event when one starts; the exact
  consequence of a pending one is `RecreationIsMisreadWhen`.
- Zero-capacity jobs: the server does not forget a job. A pod may be deleted by anybody at any time.
- The clock, the network and the servers' own behaviour (data synchronisation, rebalancing, comparison of configurations)
  are parameters.

Where the code departs from its comments the model follows the code: GracefulShutdownUpgrade announces that the resources
are removed even when their deletion failed; the retry loops of the ConfigListener announce five attempts and make one; the
probes are compared by a chain of alternatives that patches one at a time.

## Model

| member | source | states |
|---|---|---|
| `ShutdownSafety.EveryReconcileIsSafe` | pkg/reconcile/pipeline/infinispan/handler/manage/upgrades.go:122-354 | In every run, whatever calls fail: servers are only stopped, in list order, with rebalancing off and no replica asked for, and the first one only in a whole, healthy cluster; Stopping is recorded only with every listed server stopped; the StatefulSet is scaled to zero only while Stopping, and destroyed only by an upgrade with its size recorded and no pod left; a resume takes exactly the size that was shut down; the restart ends only with rebalancing enabled on a cluster reporting that many members |
| `ShutdownSafety.ReplicasAreConserved` | pkg/reconcile/pipeline/infinispan/handler/manage/upgrades.go:265-324 | In every run, from the recorded Stopping to the next enabled rebalance the StatefulSet asks for no replica or for exactly as many as were shut down, a recorded size is that size, and no recorded size outlives the restart |
| `ShutdownSafety.NotWellFormedBeforeRebalance` | pkg/reconcile/pipeline/infinispan/handler/manage/upgrades.go:356-408 | In every run WellFormed is not True between a recorded Stopping and the next successful RebalanceEnable |
| `ShutdownSafety.RunsKeep` | pkg/reconcile/pipeline/infinispan/handler/manage/upgrades.go:55-354 | The inductive invariant behind the three rows above holds in every state of every run, across all handlers and their order |
| `ShutdownSafety.RunKeeps` | pkg/reconcile/pipeline/infinispan/pipeline/pipeline.go:195-217 | One run of the handlers in pipeline order keeps the invariant from any handler on, and ends in a stop or in a stable cluster with all its pods |
| `ShutdownSafety.QuietRunsEndStable` | pkg/reconcile/pipeline/infinispan/pipeline/pipeline.go:39-48 | A run that ends without asking for a stop leaves a stable cluster with nothing recorded for a restart |
| `ShutdownSafety.PipelineOrder` | pkg/reconcile/pipeline/infinispan/pipeline/pipeline.go:141-229 | The handlers come in the order the proofs rely on; an upgrade in progress leaves out exactly the provisioning ones |
| `ShutdownSafety.StopServersEffect` | pkg/reconcile/pipeline/infinispan/handler/manage/upgrades.go:133-272 | What stopping the servers leaves behind wherever it is interrupted, and that Stopping is recorded only after the health checks let it go ahead |
| `ShutdownRelease.UpgradeInstallsRequest` | pkg/reconcile/pipeline/infinispan/handler/manage/upgrades.go:55-70 | Whatever calls fail during an upgrade with the request fixed, a cluster that comes to rest again has the requested release and image recorded as running, at the size its StatefulSet had when the upgrade became due; so the replicas asked for survive if and only if the StatefulSet had been given them before |
| `ShutdownRelease.UpgradeIsScheduledWhen` | pkg/reconcile/pipeline/infinispan/handler/manage/upgrades.go:55-115 | A reconciliation schedules an upgrade if and only if the run gets that far, the operand is running and is not what is asked for, and the update is sent; it then asks for no replica and records the requested version, image and custom-image mark as pending |
| `ShutdownRelease.RestMeansInstalled` | pkg/reconcile/pipeline/infinispan/handler/manage/upgrades.go:72-114 | A cluster at rest with its operand running runs the requested image, or an image of the operator's own when none is requested, of the requested release or of one that differs from it in the base image alone; with replicas its operand always runs |
| `ShutdownRelease.RestsPending` | pkg/reconcile/pipeline/infinispan/handler/manage/upgrades.go:89-92 | Without replicas it may rest with a pending operand, whatever image is asked for |
| `ShutdownRelease.EditLeavesRestWhen` | pkg/reconcile/pipeline/infinispan/handler/manage/upgrades.go:72-114 | An edit of version or image leaves a cluster at rest if and only if it asks for what is running, or the operand is pending |
| `ShutdownRelease.ReconcileRecords` | pkg/reconcile/pipeline/infinispan/handler/manage/conditions.go:253-269 | Whatever fails, a reconciliation leaves the request alone and the recorded operand as it is, or makes it the requested one; the operand becomes running only with a cluster found well formed |
| `ShutdownRelease.WellFormedMeansWhole` | pkg/reconcile/pipeline/infinispan/handler/manage/conditions.go:100-179 | A reconciliation that makes the cluster well formed, or ends without asking to be run again, has found at least as many pods as replicas asked for, all ready, answering and listing the same members |
| `ShutdownReports.SilentRunsAreFaultless` | pkg/reconcile/pipeline/infinispan/pipeline/pipeline.go:195-217 | A run that ends without an error has done exactly what it would have done with every handler entered and every call successful, but for the deletion of the StatefulSet, whose error the following update erases |
| `ShutdownReports.FailuresChangeNothing` | pkg/reconcile/pipeline/infinispan/pipeline/pipeline.go:28-49 | A reconciliation in which no call has an effect has none |
| `ShutdownPodsProofs.GoMeansWhole` | pkg/reconcile/pipeline/infinispan/handler/manage/upgrades.go:154-236 | The first pod loop lets the shutdown go ahead if and only if every pod can be reached and every pod before the first stopped one reports the full size and good health |
| `ShutdownPodsProofs.FirstShutdownNeedsWholeCluster` | pkg/reconcile/pipeline/infinispan/handler/manage/upgrades.go:180-236 | With no server stopped yet: if and only if every pod reports the full size and good health |
| `ShutdownPodsProofs.ResumedShutdownIsNotBlocked` | pkg/reconcile/pipeline/infinispan/handler/manage/upgrades.go:159-183 | Once the first pod is stopped the size and health checks decide nothing any more |
| `ShutdownPodsProofs.OutOfOrderShutdownIsBlocked` | pkg/reconcile/pipeline/infinispan/handler/manage/upgrades.go:185-207 | When every pod answers and no running server sees the full size any more, the first pod loop lets the shutdown go ahead if and only if the list is empty or its first server is a stopped one: the order of the list is what keeps a resumed shutdown from being held up |
| `ShutdownPodsProofs.SweepStopsInOrder` | pkg/reconcile/pipeline/infinispan/handler/manage/upgrades.go:238-262 | The second pod loop, wherever it is interrupted: the stopped servers stay a prefix, none is restarted, rebalancing is off once one is stopped, and completion means all are |
| `ShutdownPodsProofs.SweepCompletes` | pkg/reconcile/pipeline/infinispan/handler/manage/upgrades.go:238-262 | With no call failing the second loop completes |
| `ShutdownLiveness.ReconcileProgress` | pkg/reconcile/pipeline/infinispan/handler/manage/upgrades.go:122-408 | With the platform caught up and no call failing, every reconciliation of a cluster that is not blocked strictly decreases a stage measure or finds it at rest, and does not block it; no answer is asked of a stopped server, and no size or health of one listed after a stopped one |
| `ShutdownLiveness.RestIffNotBlocked` | pkg/reconcile/pipeline/infinispan/handler/manage/upgrades.go:55-408 | After any history, 36 cooperative rounds end at rest if and only if the cluster was not in one of four blocked states |
| `ShutdownLiveness.RestIsReachable` | pkg/reconcile/pipeline/infinispan/handler/manage/upgrades.go:55-408 | After any history, some sequence of cooperative rounds brings the cluster to rest if and only if it is not blocked: cooperation is always possible |
| `ShutdownLiveness.ComesToRest` | pkg/reconcile/pipeline/infinispan/handler/manage/upgrades.go:55-408 | A cluster that is not blocked is at rest after as many cooperative rounds as its distance, and stays there |
| `ShutdownLiveness.BlockedStaysBlocked` | pkg/reconcile/pipeline/infinispan/handler/manage/upgrades.go:308-316 | No reconciliation leaves a blocked state, whatever calls fail or succeed |
| `ShutdownLiveness.SettleIsLegal` | pkg/reconcile/pipeline/infinispan/context/context.go:124-146 | Letting the platform catch up is something the environment may do, and keeps the invariant |
| `ShutdownLimits.UpgradeIsLostWhen` | pkg/reconcile/pipeline/infinispan/handler/manage/upgrades.go:337-354 | A reconciliation leaves an upgrade in progress without a StatefulSet if and only if the deletion takes effect and the end of the upgrade is not recorded: its spec patch is sent and is not Ok, or its status patch fails |
| `ShutdownLimits.LostForGood` | pkg/reconcile/pipeline/infinispan/handler/manage/conditions.go:77-82 | From then on nothing that can happen brings the upgrade on: the pipeline of an upgrade creates no StatefulSet and stops without one |
| `ShutdownLimits.UpgradeKeepsOldSetWhen` | pkg/reconcile/pipeline/infinispan/handler/manage/upgrades.go:337-354 | An upgrade is over with the StatefulSet of the old release still there if and only if the deletion has no effect and the update that records the end has one |
| `ShutdownLimits.EditAfterResumeForgetsSize` | pkg/reconcile/pipeline/infinispan/handler/manage/upgrades.go:312-321 | Between the resume and the scale up, setting the replicas to 0 makes the next resume accept any number of replicas; one half of `ReplicasAreConservedWhen` |
| `ShutdownWindows.ReplicasAreConservedWhen` | pkg/reconcile/pipeline/infinispan/handler/manage/upgrades.go:308-324 | Between the resume and the scale up, with a known version requested, after an edit of the replicas to any number, 0 included: the replicas are conserved in every legal continuation if and only if the edit leaves the number that was shut down |
| `ShutdownWindows.NextReconcileConservesWhen` | pkg/reconcile/pipeline/infinispan/handler/manage/upgrades.go:308-324 | For an edit to a positive number the very next reconciliation decides: it conserves the replicas if and only if the number is the one that was shut down |
| `ShutdownLimits.UpgradeAfterResumeIsEmpty` | pkg/reconcile/pipeline/infinispan/handler/manage/upgrades.go:60-68 | In the same window a change of the request schedules an upgrade of an empty cluster if and only if it requires one |
| `ShutdownLimits.EmptyUpgradeForGood` | pkg/reconcile/pipeline/infinispan/handler/manage/upgrades.go:337-341 | Such an upgrade never ends, whatever happens |
| `ShutdownLimits.RebuildFollowsTheSpec` | pkg/reconcile/pipeline/infinispan/handler/provision/statefulsets.go:44-82 | While the StatefulSet is rebuilt it is created at the edited replicas, and the cluster is then blocked if and only if they differ from the size that was shut down |
| `ShutdownWindows.RebalanceIsSkippedWhen` | pkg/reconcile/pipeline/infinispan/handler/manage/manage.go:128-197 | While a resumed cluster forms, the user sets the replicas to a positive number: one of the next three cooperative rounds leaves the cluster well formed with rebalancing still off if and only if the number changed; otherwise the first round enables rebalancing |
| `ShutdownLimits.RaisedWhileStoppingStalls` | pkg/reconcile/pipeline/infinispan/handler/manage/upgrades.go:122-147 | Raising the replicas while Stopping is True, with no upgrade in progress or required: whatever calls fail, the next reconciliation leaves Stopping True and starts no server |
| `ShutdownLimits.StoppingIsRecordedWhen` | pkg/reconcile/pipeline/infinispan/handler/manage/upgrades.go:133-272 | A reconciliation records Stopping if and only if it gets to stopping the servers, the first pod loop lets it go ahead, every call of the second goes well, and the update takes effect |
| `ShutdownLimits.EmptyPodListCountsAsStopped` | pkg/reconcile/pipeline/infinispan/handler/manage/upgrades.go:137-272 | Stopping is recorded with no server shut down, now or before, if and only if the pod list is empty, the run gets to stopping the servers and the update takes effect |
| `ShutdownLimits.PvcLoopWorksDownwards` | pkg/reconcile/pipeline/infinispan/handler/manage/manage.go:170-177 | The volume loop, wherever it is interrupted, removes a top part of its range and nothing else; all of it when no call fails |
| `ShutdownLimits.VolumesAreRemovedOnlyWhen` | pkg/reconcile/pipeline/infinispan/handler/manage/manage.go:146-177 | A volume is removed only from the top of a recorded scale down to a positive number, with the StatefulSet resized and no more pods ready than that |
| `ShutdownLimits.SurvivingVolumesAreKeptWhen` | pkg/reconcile/pipeline/infinispan/handler/manage/manage.go:168-177 | A completed scale down removes exactly the volumes from the reported pod count up to the former number of replicas; so it keeps those of all the pods that stay if and only if the reported count is not below the requested one |
| `ShutdownOperator.Operator.GracefulShutdown` | pkg/reconcile/pipeline/infinispan/handler/manage/upgrades.go:122-324 | The handler with its two pod loops, changing fields in place, does exactly what the model says |
| `ShutdownOperator.Operator.CheckServers` | pkg/reconcile/pipeline/infinispan/handler/manage/upgrades.go:150-236 | The loop over the pods that fills the table of servers to skip |
| `ShutdownOperator.Operator.ShutdownServers` | pkg/reconcile/pipeline/infinispan/handler/manage/upgrades.go:238-262 | The loop that disables rebalancing once and shuts the servers down |
| `ShutdownOperator.Operator.ClusterScaling` | pkg/reconcile/pipeline/infinispan/handler/manage/manage.go:128-197 | The handler with its descending volume loop does exactly what the model says |
| `ShutdownOperator.Operator.Process` | pkg/reconcile/pipeline/infinispan/pipeline/pipeline.go:28-49 | The handler loop with its early break computes exactly the run the theorems are about, and reports its flow status |
| `CompareAndSet.RunsAreAtomic` | pkg/reconcile/pipeline/infinispan/context/context.go:195-212 | A run interleaved with edits in any way ends as if it had run undisturbed, cut off at its first update after an edit, and the edits had come afterwards, whichever of its patches fail or get lost; no edit falls between the comparison of an update and its patches |
| `CompareAndSet.Context.UpdateInfinispan` | pkg/reconcile/pipeline/infinispan/context/context.go:195-212 | The update with its two patches: it is turned down, and then changes nothing, when the stored version is not the one the run works on; an error leaves nothing written, the spec alone, or both |
| `CompareAndSet.EditInTheWindowSurvivesWhen` | pkg/reconcile/pipeline/infinispan/context/context.go:195-212 | An edit between the comparison and the patch is not turned down; it is as if made after the update if and only if no field is changed by both, and differently |
| `FlowControl.FlowAccumulates` | pkg/reconcile/pipeline/infinispan/context/flow_control.go:9-43 | A run stops if and only if one request was not "eventually", retries if and only if one was not a bare stop, and reports an error if and only if the last stopping request carried one |
| `FlowControl.LastDelayCounts` | pkg/reconcile/pipeline/infinispan/context/flow_control.go:9-43 | The delay reported is that of the last request that carries one |
| `Operands.RecordedOperandIsSettled` | pkg/reconcile/pipeline/infinispan/handler/manage/upgrades.go:72-114 | Recording the requested operand settles whether an upgrade is required, so upgrades do not repeat |
| `Operands.UpgradeRequiredWhen` | pkg/reconcile/pipeline/infinispan/handler/manage/upgrades.go:72-114 | An upgrade is required if and only if the installed release is unknown, or the operand is running and is not what is asked for: the requested image of the very release, or, with none requested, an own image of that release or of one with the same server and a new base image |
| `Operands.EqualMeansSameReference` | pkg/infinispan/version/version.go:31-57 | Among releases of one kind, equality is equality of the references they are registered under |
| `WellFormed.TrueMeansOneView` | pkg/reconcile/pipeline/infinispan/handler/manage/conditions.go:132-179 | WellFormed is True if and only if there are enough pods, at least one, all ready and answering, and all report the same members |
| `WellFormed.UnknownMeansNoAnswer` | pkg/reconcile/pipeline/infinispan/handler/manage/conditions.go:132-179 | Unknown if and only if there are too few pods or one does not answer; False if and only if all answer and there are none, or two list different members |
| `WellFormed.WellFormedCondition` | pkg/reconcile/pipeline/infinispan/handler/manage/conditions.go:132-179 | The loop that collects views and errors computes that condition |
| `HotRodSafety.EveryReconcileIsSafe` | pkg/reconcile/pipeline/infinispan/handler/manage/hotrod_upgrades.go:75-146 | In every run: stages never skip and advance only when their work is done, so a panic while ordering the cache names never advances one; the source StatefulSet is removed only in Cleanup, with the custom resource referring to the target and every cache listed at the Sync stage fetched and then disconnected; the target only by a rollback |
| `HotRodSafety.TrafficFollowsTheStage` | pkg/reconcile/pipeline/infinispan/handler/manage/hotrod_upgrades.go:325-342 | In every run until a rollback begins: the external service selects the source through Prepare, either in Redirect, the target from Sync on; the administration service the source through Sync, either in Replace, the target in Cleanup; the target is never selected before every listed cache was connected |
| `HotRodSafety.IdleMeansOneStatefulSet` | pkg/reconcile/pipeline/infinispan/handler/manage/hotrod_upgrades.go:514-536 | In every run, without an upgrade there is at most one StatefulSet, nothing else is left of an earlier upgrade, and no service is pinned to one |
| `HotRodSafety.RunsKeep` | pkg/reconcile/pipeline/infinispan/handler/manage/hotrod_upgrades.go:47-614 | The inductive invariant behind the three rows above |
| `HotRodSafety.CachesFinish` | pkg/infinispan/upgrades/rolling_upgrades.go:15-94 | A completed ConnectCaches or SyncCaches has finished every cache the source listed |
| `HotRodFinish.RetriesAreConfluent` | pkg/reconcile/pipeline/infinispan/handler/manage/hotrod_upgrades.go:514-614 | A cleanup, or a rollback before Cleanup, interrupted anywhere and retried any number of times, ends exactly as an uninterrupted one |
| `HotRodFinish.GoalIsOneCluster` | pkg/reconcile/pipeline/infinispan/handler/manage/hotrod_upgrades.go:569-614 | That end is one StatefulSet with its ConfigMap and ping service and no service pinned to it |
| `HotRodFinish.UndisturbedFinishes` | pkg/reconcile/pipeline/infinispan/handler/manage/hotrod_upgrades.go:514-566 | One undisturbed reconciliation finishes it |
| `HotRodFinish.RollbackRestoresTheSource` | pkg/reconcile/pipeline/infinispan/handler/manage/hotrod_upgrades.go:539-566 | A finished rollback restores the source StatefulSet with its caches and the source release |
| `HotRodFinish.LateRollbackKeepsDataWhen` | pkg/reconcile/pipeline/infinispan/handler/manage/hotrod_upgrades.go:539-566 | A rollback in Cleanup leaves a StatefulSet if and only if the cleanup had not removed the source yet |
| `HotRodFinish.StrandedForGood` | pkg/reconcile/pipeline/infinispan/handler/manage/hotrod_upgrades.go:577-579 | A rollback in Cleanup interrupted after it deleted the ping service in use never completes |
| `HotRodFinish.UnknownSourceIsStuck` | pkg/reconcile/pipeline/infinispan/handler/manage/hotrod_upgrades.go:97-101 | An upgrade from a release the operator no longer knows panics in every reconciliation and makes no progress |
| `HotRodProgress.UpgradeFinishes` | pkg/reconcile/pipeline/infinispan/handler/manage/hotrod_upgrades.go:124-536 | An undisturbed upgrade is over after at most seven reconciliations, with the target in use, alone, and everything that belongs to it |
| `HotRodProgress.ReconcileAdvances` | pkg/reconcile/pipeline/infinispan/handler/manage/hotrod_upgrades.go:124-149 | Each undisturbed reconciliation takes the upgrade exactly one step on |
| `HotRodRelease.UpgradeInstallsRequestWhen` | pkg/reconcile/pipeline/infinispan/handler/manage/hotrod_upgrades.go:53-149 | An undisturbed upgrade ends with a new StatefulSet in use, the requested version and image recorded as running and no further upgrade required if and only if the releases differ; a request that differs in the image alone is rolled back at once, with its image recorded over the old StatefulSet |
| `HotRodRelease.UpgradeIsScheduledWhen` | pkg/reconcile/pipeline/infinispan/handler/manage/hotrod_upgrades.go:47-73 | A reconciliation schedules an upgrade if and only if none is in progress, the run gets that far, the operand is running and is not what is asked for, and the update has an effect |
| `HotRodRelease.ReconcileRecords` | pkg/reconcile/pipeline/infinispan/handler/manage/hotrod_upgrades.go:47-73 | Whatever fails, the recorded operand changes only when an upgrade is scheduled, to the requested version and image, and when a rollback is over, to the source version with the requested image; it becomes running only with the target in use, a rollback over, or a well-formed cluster |
| `HotRodRelease.LostAnswersDoNotMatter` | pkg/reconcile/pipeline/infinispan/handler/manage/hotrod_upgrades.go:412-566 | An update of the custom resource whose answer is lost counts as one that succeeds, in every reconciliation |
| `HotRodIdle.IdleRunProvisions` | pkg/reconcile/pipeline/infinispan/handler/provision/services.go:20-107 | An undisturbed reconciliation that needs no upgrade leaves exactly the StatefulSet in use, its ConfigMap and its services, none of them pinned, and records what is observed of the cluster |
| `HotRodIdle.StoppedRunWaits` | pkg/reconcile/pipeline/infinispan/pipeline/pipeline.go:28-49 | A run that stops before the handlers of its case changes nothing but the selector of the user service, or schedules an upgrade |
| `HotRodScripts.RemovalAchieves` | pkg/reconcile/pipeline/infinispan/handler/manage/hotrod_upgrades.go:569-614 | A completed removal of a StatefulSet leaves exactly the closed form |
| `HotRodScripts.RemovalIsPartial` | pkg/reconcile/pipeline/infinispan/handler/manage/hotrod_upgrades.go:569-614 | An interrupted removal leaves every location at its old or its final value |
| `HotRodScripts.ProvisionRuns` | pkg/reconcile/pipeline/infinispan/handler/provision/services.go:20-107 | Provisioning, wherever it is interrupted, keeps what exists and, completed, leaves the StatefulSet with everything that belongs to it |
| `HotRodOperator.UpgradeRequest.HotRodRollingUpgrade` | pkg/reconcile/pipeline/infinispan/handler/manage/hotrod_upgrades.go:75-149 | The stage switch, changing fields in place, does exactly what the model says |
| `HotRodOperator.UpgradeRequest.Reconcile` | pkg/reconcile/pipeline/infinispan/pipeline/pipeline.go:28-49 | A whole reconciliation, from the services to the conditions, computes exactly the step the theorems are about |
| `HotRodOperator.UpgradeRequest.ScheduleHotRodRollingUpgrade` | pkg/reconcile/pipeline/infinispan/handler/manage/hotrod_upgrades.go:47-73 | The method schedules what the model says; what that is, and when, is stated by `HotRodRelease.ReconcileRecords` and `UpgradeIsScheduledWhen` |
| `HotRodOperator.UpgradeRequest.RemoveStatefulSetResources` | pkg/reconcile/pipeline/infinispan/handler/manage/hotrod_upgrades.go:569-614 | The sequence of selector changes and the loop of deletions do exactly what the script says |
| `HotRodOperator.UpgradeRequest.MigrateCaches` | pkg/reconcile/pipeline/infinispan/handler/manage/hotrod_upgrades.go:412-493 | The Prepare and Sync stages run the cache loops on the target and advance only on success |
| `CacheMigration.ConnectingIsRetrySafe` | pkg/infinispan/upgrades/rolling_upgrades.go:15-70 | After any number of interrupted attempts: one without a failing call ends with every listed cache connected, and over all of them Create and AddSource take effect at most once for each cache |
| `CacheMigration.TreatAllFinishes` | pkg/infinispan/upgrades/rolling_upgrades.go:29-92 | Both loops: completion means every cache is connected, or fetched and then disconnected |
| `CacheMigration.MissingCachesAreCreatedOnce` | pkg/infinispan/upgrades/rolling_upgrades.go:15-70 | A completed ConnectCaches over distinct names has created every missing cache exactly once, the server's own apart, connected every unconnected one exactly once, and left the others |
| `CacheMigration.ConnectEffect` | pkg/infinispan/upgrades/rolling_upgrades.go:29-70 | The two calls for one cache, each made only when needed, and exactly when the step completes |
| `CacheMigration.SyncEffect` | pkg/infinispan/upgrades/rolling_upgrades.go:73-94 | The data of a cache are fetched before its connection is removed, which stays while they have not been |
| `CacheMigration.Target.ConnectCaches` | pkg/infinispan/upgrades/rolling_upgrades.go:15-70 | The loop, changing the caches of the target in place, computes the modelled result |
| `CacheMigration.Target.SyncCaches` | pkg/infinispan/upgrades/rolling_upgrades.go:73-94 | The loop, changing the caches of the target in place, computes the modelled result |
| `CacheNames.OrderNames` | pkg/infinispan/upgrades/rolling_upgrades.go:97-114 | The loop that fills a preallocated array with an index variable; None stands for an index out of range |
| `CacheNames.PanicsWhen` | pkg/infinispan/upgrades/rolling_upgrades.go:97-114 | It panics if and only if the two internal caches are listed less than twice altogether |
| `CacheNames.OrderedIsPermutationWhen` | pkg/infinispan/upgrades/rolling_upgrades.go:97-114 | The result is a permutation if and only if each internal cache is listed once; they come first, the rest in original order |
| `FreshNames.ParsePrint` | pkg/reconcile/pipeline/infinispan/handler/manage/hotrod_upgrades.go:236-239 | Parsing the printed revision gives it back |
| `FreshNames.NextGenerated` | pkg/reconcile/pipeline/infinispan/handler/manage/hotrod_upgrades.go:229-240 | The next name has the same base if and only if the revision is below the largest machine integer, and then the next revision |
| `FreshNames.NamesAreFresh` | pkg/reconcile/pipeline/infinispan/handler/manage/hotrod_upgrades.go:229-240 | Over any number of successive upgrades below that bound no name is used twice |
| `FreshNames.TargetIsNotSource` | pkg/reconcile/pipeline/infinispan/handler/manage/hotrod_upgrades.go:229-240 | The target never equals the source, whatever the name, even past the bound |
| `CacheSyncProofs.EchoIsSuppressed` | controllers/cache_controller.go:309-315 | Over every interleaving in which the listener writes only differences: the server is contacted if and only if the last change of the spec was not the listener's |
| `CacheSyncProofs.IdleUpdateSwallowsNextEdit` | controllers/cache_controller.go:566-600 | After a listener update the next user edit reaches the server if and only if that update changed the spec |
| `CacheSyncProofs.SuppressedLeavesServer` | controllers/cache_controller.go:281-291 | A suppressed reconciliation leaves the server alone |
| `CacheSyncProofs.PushConverges` | controllers/cache_controller.go:332-429 | An undisturbed reconciliation that contacts the server leaves it with exactly the configuration asked for, unless the cache exists and is described by a template name, or is called equivalent by the server: then it is left alone |
| `CacheStrategies.RetainKeepsData` | controllers/cache_controller.go:376-382 | Under any strategy but Recreate no reconciliation of a resource that is not being deleted removes its cache or causes a remove event, whatever fails; a cache it changes holds the requested template |
| `CacheStrategies.CacheIsRemovedWhen` | controllers/cache_controller.go:384-411 | A reconciliation removes the cache of a resource that is not being deleted if and only if the strategy is Recreate, the configuration differs and cannot be changed in place, and the removal was announced; it is then missing if and only if the answer to the removal is lost or the creation has no effect |
| `CacheStrategies.CacheIsCreatedWhen` | controllers/cache_controller.go:412-429 | A missing cache is created if and only if the resource describes it, the server can be asked and the creation has an effect; by the named template if one is named |
| `CacheStrategies.FailedUpdateIsReported` | controllers/cache_controller.go:376-382 | Under Retain a failed update makes the resource not ready and changes nothing else |
| `CacheStrategies.ReadyMeansServed` | controllers/cache_controller.go:281-302 | Whatever fails in a reconciliation that contacts the server, a resource it leaves ready is served, also one that was ready before, provided a report to the contrary would take effect |
| `CacheStrategies.DeletionCompletesWhen` | controllers/cache_controller.go:262-278 | The deletion of a finalized resource completes if and only if the cluster is gone or the server confirms the removal, and the finalizer is dropped; the cache is removed only in the second case |
| `CacheStrategies.MarkedIsRemovedWhen` | controllers/cache_controller.go:160-180 | When a resource marked by the listener goes, call by call; the server is left alone |
| `CacheStrategies.UnreachedWaits` | controllers/cache_controller.go:183-260 | A reconciliation that is paused, or cannot get to the server although nothing is missing, does nothing |
| `CacheStrategies.ServerChangeIsMirrored` | controllers/cache_controller.go:566-600 | A configuration that appears on the server is what the resource asks for after the listener's update, and an undisturbed reconciliation leaves it there and the resource ready |
| `CacheStrategies.RemovalIsMirrored` | controllers/cache_controller.go:646-686 | A removal by somebody else makes the resource disappear, the server being left alone |
| `CacheSyncProofs.FinalizerIsSafe` | controllers/cache_controller.go:160-278 | A finalized resource is released only if marked by the listener, or deleted with its cluster gone, or deleted with the cache just removed from the server |
| `CacheSyncProofs.RecreationIsNotMisread` | controllers/cache_controller.go:384-411 | In every run in which a recreation starts with no remove event pending, no failure makes the listener mark the resource because of its own recreation |
| `CacheSyncProofs.RecreationIsMisreadWhen` | controllers/cache_controller.go:646-686 | A recreation in which nothing fails is misread if and only if a remove event, whoever caused it, was pending when it started |
| `CacheReconciler.Reconciler.Reconcile` | controllers/cache_controller.go:136-302 | The controller with its early returns does exactly what the model says |
| `CacheReconciler.Reconciler.ReconcileDataGrid` | controllers/cache_controller.go:350-429 | The update, recreate and create branches do exactly what the model says |
| `CacheReconciler.Listener.UpdateCache` | controllers/cache_controller.go:548-612 | The retry loop makes at most one attempt; the update is lost without an error if and only if that one meets a conflict |
| `CacheReconciler.Listener.UpdateSchema` | controllers/schema_controller.go:466-502 | The retry loop makes at most one attempt, and reports an error if and only if that one fails |
| `SchemaAdmission.SchemasAreUnique` | api/v2alpha1/schema_webhook.go:36-108 | With admissions one at a time every reachable namespace has at most one resource for each schema of each cluster |
| `SchemaAdmission.CreationIsAdmittedWhen` | api/v2alpha1/schema_webhook.go:54-88 | A creation is admitted, as defaulted, if and only if the resource is new, names a cluster and a content, and no resource of that cluster stands for a schema of that name |
| `SchemaAdmission.UpdateIsAdmittedWhen` | api/v2alpha1/schema_webhook.go:91-113 | An update is admitted if and only if it leaves the cluster and the name of the schema alone |
| `SchemaAdmission.NameIsSpelledOut` | api/v2alpha1/types_util.go:154-163 | A schema is known by the name in the spec, or else by that of the resource, with the suffix; defaulting spells out the former |
| `SchemaAdmission.DefaultKeepsName` | api/v2alpha1/schema_webhook.go:36-46 | Defaulting changes neither the schema a resource stands for nor, a second time, anything |
| `SchemaAdmission.ListenerUpdateIsAdmitted` | controllers/schema_controller.go:475-490 | A listener update is always admitted and keeps the schema the resource stands for |
| `SchemaAdmission.ConcurrentCreationsClashWhen` | api/v2alpha1/schema_webhook.go:60-88 | Two creations checked against the same namespace break uniqueness if and only if they are for the same schema of the same cluster |
| `SchemaAdmission.FindExisting` | controllers/schema_controller.go:552-578 | The loop and its three outcomes |
| `SchemaAdmission.LookupIsUnambiguous` | controllers/schema_controller.go:573-577 | The "more than one" outcome is unreachable |
| `SchemaController.RemovalIsSafe` | controllers/schema_controller.go:144-245 | The schema leaves the server only for a deleted resource that no Cache of the cluster refers to; the resource only after that, without a cluster, or marked |
| `SchemaController.ReferencedSchemaSurvives` | controllers/schema_controller.go:304-316 | In every run a schema that Cache resources keep referring to is never removed from the server |
| `SchemaController.ReadyMeansAccepted` | controllers/schema_controller.go:247-283 | Ready is reported only when the server does not list the schema with an error (one it does not list passes too) and, unless the listener wrote it, has just taken exactly the content asked for |
| `SchemaController.ReadyExactlyWhenAccepted` | controllers/schema_controller.go:247-283 | Once the server has been asked, a resource is ready, whether or not it was before, if and only if the content, if it had to be pushed, was taken and the status check finds no error; provided the report takes effect |
| `SchemaController.DeletionCompletesWhen` | controllers/schema_controller.go:216-245 | The deletion of a finalized resource completes if and only if its cluster is gone, or can be asked and no Cache of the cluster refers to the schema, each call failing as it may; the schema leaves the server only in the second case |
| `SchemaController.UnreachedWaits` | controllers/schema_controller.go:160-216 | A reconciliation that is paused, or cannot get to the server of a cluster that is there, does nothing |
| `SchemaSync.EchoIsSuppressed` | controllers/schema_controller.go:291-297 | Over every interleaving of user, listener and controller: an undisturbed reconciliation pushes the schema if and only if synchronisation is one-way or the last change of the spec was not the listener's |
| `SchemaSync.SuppressedLeavesServer` | controllers/schema_controller.go:247-258 | After a change by the listener a reconciliation leaves the server alone, whatever fails in it |
| `SchemaSync.EditReachesServer` | controllers/schema_controller.go:247-283 | After any history, a user edit that changes the spec is on the server, and the resource ready, after the next undisturbed reconciliation |
| `SchemaSync.ServerChangeIsMirrored` | controllers/schema_controller.go:420-502 | After any history, a content that appears on the server is what the resource asks for once the listener has seen it, and an undisturbed reconciliation leaves it there and the resource ready |
| `SchemaSync.StampedRun` | controllers/schema_controller.go:466-490 | In every run the generation annotation equals the generation if and only if the listener changed the spec last, because it writes only a content that differs |
| `SchemaReconciler.Reconciler.FindReferencingCaches` | controllers/schema_controller.go:304-316 | The loop returns exactly the names of the referring Cache resources |
| `SchemaReconciler.Reconciler.Reconcile` | controllers/schema_controller.go:120-284 | The controller with its early returns does exactly what the model says |
| `RollingConvergence.RollingUpdateConverges` | pkg/reconcile/pipeline/infinispan/handler/manage/statefulset_updates.go:39-262 | With the request fixed, after at most three applications everything is as asked for and every later one changes and reports nothing |
| `RollingConvergence.OneRollPerProbe` | pkg/reconcile/pipeline/infinispan/handler/manage/statefulset_updates.go:80-92 | When only probes differ the pods are rolled exactly once for each of them, so up to three times |
| `RollingConvergence.HelpersKeepVolumesPaired` | pkg/reconcile/pipeline/infinispan/handler/manage/statefulset_updates.go:329-360 | Any sequence of the helpers keeps every removable volume present at most once and mounted exactly when present, and never panics |
| `RollingConvergence.UpdatePodRuns` | pkg/reconcile/pipeline/infinispan/handler/manage/statefulset_updates.go:162-226 | A pass over a well-made pod leaves it as asked for but perhaps for the identities hash, and leaves a pod as asked for alone |
| `RollingConvergence.OverlayUndone` | pkg/reconcile/pipeline/infinispan/handler/manage/statefulset_updates.go:329-360 | Adding and removing the overlay volume restores the pod element for element |
| `RollingConvergence.DependenciesUndone` | pkg/reconcile/pipeline/infinispan/handler/provision/dependencies.go:22-36 | Adding and removing the custom libraries restores the pod element for element |
| `RollingConvergence.ArtifactsUndone` | pkg/reconcile/pipeline/infinispan/handler/provision/dependencies.go:38-93 | Adding and removing the external artifacts restores the pod element for element |
| `RollingConvergence.SecretsRun` | pkg/reconcile/pipeline/infinispan/handler/provision/pods.go:246-291 | Adding secret volumes establishes a volume and the mount of each of them, and changes something if and only if one was missing or its mount differed; which secret each holds is stated by `PodEffects` |
| `PodEffects.SecretsEffect` | pkg/reconcile/pipeline/infinispan/handler/provision/pods.go:246-291 | Every secret volume asked for holds its secret, unless a volume of that name was there before, which keeps its source; each is mounted at its path; nothing else changes |
| `PodEffects.PodEffect` | pkg/reconcile/pipeline/infinispan/handler/manage/statefulset_updates.go:162-226 | The source, the mount, the init container and the environment variable that one pass leaves under every name, in closed form |
| `PodEffects.ConvergesTo` | pkg/reconcile/pipeline/infinispan/handler/manage/statefulset_updates.go:39-262 | After three passes, and for good, the template has exactly these volumes, mounts, init containers and environment, the hash of the identities included, and the requested labels, probes, placement, arguments and checksums; memory, processor and image as asked for, or as they were |
| `PodEffects.PodsRollWhen` | pkg/reconcile/pipeline/infinispan/handler/manage/statefulset_updates.go:21-263 | A pass rolls the pods if and only if the template changes in more than the number of replicas, and stores it if and only if it changes at all |
| `StatefulSetUpdater.Updater.StatefulSetRollingUpgrade` | pkg/reconcile/pipeline/infinispan/handler/manage/statefulset_updates.go:21-263 | The differ and patcher, changing the template in place and collecting its reasons, does exactly what the model says |
| `StatefulSetUpdater.Updater.ApplyOverlayConfigVolume` | pkg/reconcile/pipeline/infinispan/handler/manage/statefulset_updates.go:329-360 | The in-place helper does exactly what the model says, panics included |
| `StatefulSetUpdater.Updater.UpdateStartupArgs` | pkg/reconcile/pipeline/infinispan/handler/manage/statefulset_updates.go:286-302 | The comparison loop reports a change if and only if the arguments differ |
| `NamedLists.RemoveEffect` | pkg/reconcile/pipeline/infinispan/handler/manage/statefulset_updates.go:355-357 | Cutting an entry out of a list leaves what is found under every other name |
| `ZeroCapacity.JobsRunOnce` | controllers/zero_controller.go:126-194 | In every run, with any phase write failing: the phase only moves forward, terminal phases are final, from Initialized on the pod is there unless somebody has deleted it, the server accepts at most one Create, Succeeded stands only for a job that has succeeded, and Stop is never sent before a terminal phase |
| `ZeroCapacity.UndisturbedAdvances` | controllers/zero_controller.go:196-291 | An undisturbed reconciliation moves a job on unless it waits for the server, and records a finished job as what it is |
| `ZeroCapacity.JobsComplete` | controllers/zero_controller.go:126-291 | After any history that has not ended, five undisturbed rounds, in which the pod becomes ready and the job finishes, end in Succeeded or Failed as the job did, with the server stopped, if and only if the pod was not deleted before the job was started |
| `ZeroCapacity.OrphanedForGood` | controllers/zero_controller.go:259-263 | A job whose pod was deleted before that is never started, whatever happens |
| `ZeroCapacity.PodIsCreatedWhen` | controllers/zero_controller.go:196-257 | The pod is created, and Initialized recorded, exactly when the cluster is stable and the resource says how to start, call by call |
| `ZeroCapacity.ServerIsStoppedWhen` | controllers/zero_controller.go:293-320 | A reconciliation stops the server if and only if the phase is terminal, it gets through and the request takes effect |
| `ZeroCapacity.MisrecordedWhen` | controllers/zero_controller.go:264-291 | A reconciliation records Failed over a job that has not failed if and only if it gets through, the phase write takes effect, and the status request fails or, with no job known, the Create is not Ok |
| `ZeroCapacity.FailedIsWrongWhen` | controllers/zero_controller.go:264-291 | Over every run that ends with a job that has not failed: the resource says Failed if and only if some reconciliation of the run misrecorded it |
| `ZeroCapacity.FailedRequestIsFinal` | controllers/zero_controller.go:277-284 | A misrecorded Failed is final, whatever becomes of the job; one due to a failed status request leaves the job as it was |
| `ZeroCapacity.LostCreateIsRecordedAsFailure` | controllers/zero_controller.go:264-271 | Failed is recorded over the job just created if and only if the Create takes effect and its answer is lost; the job may still succeed |
| `ZeroController.Controller.Reconcile` | controllers/zero_controller.go:126-194 | The phase switch, writing the phase in place, does exactly what the model says |
| `ZeroController.Controller.Exec` | controllers/backup_controller.go:179-207 | The method asking for the status and creating the job computes exactly the outcome of the model |
| `PodFilter.FilterPodsByOwnerUID` | pkg/kubernetes/pods.go:132-143 | The in-place compaction does not panic and leaves exactly the owned pods, in order, if and only if no pod names the owner twice |
| `PodFilter.FilterKeepsOwned` | pkg/kubernetes/pods.go:132-143 | The filtered list has exactly the pods that name the owner |

## Left out

- The HTTP and Kubernetes clients, event streams, templates, TLS and secret material, logging and events: I/O around the decisions modelled here.
- Resources destroyed by a Shutdown upgrade after the StatefulSet (`pkg/reconcile/pipeline/infinispan/handler/manage/upgrades.go:417-459`): the deletion returns early on an error and the caller continues, so they may remain; nothing modelled depends on them.
- InitialiseOperandVersion filling in an empty version: resources written by an operator with one operand start after that step.
- PreliminaryChecks, pod labels, loggers, gossip router, cross-site: their handlers appear only as points where a run may stop.
- The pod template, and with it the release a StatefulSet was created for, is not part of the Shutdown model, so `ShutdownRelease` speaks of what is recorded; the rolling update is modelled on its own in PodTemplate.
- The user ClusterIP service during a Hot Rod upgrade: ClusterService rewrites its selector in every run, so no redirect of it is claimed.
- Progress of the Sync stage after a partial failure: it fetches caches again that were already disconnected, and whether the server accepts that is its own affair.
- The secrets, hashes and timestamps of the rolling update are compared as plain values; the update date annotation is not modelled, and an update of the operand status that fails ends a pass without storing it.
- Stale-resource detection of the listeners (RemoveStaleResources): for caches it looks a raw name up in a set of kebab-cased names.
- A Cache update by the listener drops schema references, as the model does; that they are kept is not claimed. Uniqueness of Cache resources is not claimed either: its webhook compares spec names only.
- CompareAndSet.RunsAreAtomic: takes the comparison of versions and the patches that follow it as one step, because the window between them is not guarded by anything; `EditInTheWindowSurvivesWhen` says what it lets through.
- Reads from a lagging informer cache: every reconciliation reads what was last written.
- Batch, Autoscale, the ConfigListener deployment and the remaining controllers: easy members beside the ones modelled.
- CacheReconciler.Listener.UpdateCache: takes the converted configuration to compare equal to the event's own.

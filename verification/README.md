# Litestream operator: a verified model

A Dafny model of the operator that runs Litestream next to SQLite applications on Kubernetes.
It covers four things: the coordinated restore (a persistent state machine that pauses
replication, scales the workload to zero, runs a restore Job and a validation Job, and scales
back up), the start guard that the admission webhook puts into pods, the replica controller, and
the litestream.yml printer both controllers share.

`dafny verify dfyconfig.toml` checks the whole project.

## How it is organised

| file | content |
|---|---|
| `Cluster.dfy` | the shared cluster objects, every atomic action on them with its guard and effect, runs |
| `Invariant.dfy` | one inductive invariant over all interleavings, and a second for the pause from a settled start |
| `RunTheorems.dfy` | what every run guarantees: single writer, pause window, count conservation, scale-up gate, status history |
| `Races.dfy` | runs that break the pause window and the scale-up gate from every start that fails their condition, so the conditions are exact |
| `Replays.dfy` | the controller class driven into each of those runs, and into the ends at zero, the rejected database and the hang |
| `Interference.dfy` | what everybody but the restore controller leaves alone; guards survive interference |
| `RestorePlan.dfy` | the writes of one undisturbed restore reconcile |
| `RestoreController.dfy` | the reconcile methods, one API call at a time, proved to produce runs of the protocol |
| `Progress.dfy` | a terminal phase is reached within the pod count plus eight rounds, exactly unless the name of the Job's ConfigMap is taken |
| `LitestreamConfig.dfy` | the printer, its injectivity, the restore Job's arguments |
| `Injector.dfy` | the webhook's pod mutation and the file the sidecar sees |
| `StartGuard.dfy` | the init scripts as programs over the data volume, and pods that restart them |
| `Conditions.dfy`, `ReplicaController.dfy` | conditions, health scan, status, the replica reconcile |
| `Links.dfy` | the protocol's abstractions of admission and health are exact; annotation to injected pod; no pod held after a restore |
| `ConfigRef.dfy` | the namespace/name reference and its two parsers |

**The restore protocol in two layers.** `Cluster.Action` lists the restore controller's writes
and everybody else's moves. A write carries a guard over the cluster state. The theorems of
`RunTheorems` are about all sequences of enabled actions. `RestoreController.Restorer` is the
controller as the source runs it. Its only way to change the cluster is `Write`, which demands the
guard. Before each API call the others move as often as they like, and the call is served,
refused, served with the answer lost, or never made because the process died; `script` fixes the
choices and the contracts hold for every script. So each guard is proved from what the code
checked earlier plus what the others cannot undo. Guards say no more than that: looking at the
annotation and then at the ConfigMap tells only that the two agreed at some moment since the
annotation got its value (`Cluster.Checked`), because a replica reconcile in flight may write the
contrary right afterwards.

**Reads and writes of the replica controller are separate actions.** A replica reconcile reads
the CR, later writes the ConfigMap, later looks at the pods, later removes skip-archive-check; the
restore controller may move in between. One reconcile per replica is in flight at a time, as the
work queue guarantees.

**Hypotheses.** One restore is in flight per replica. Reads are current. Nobody else scales the
workload, edits the pause and skip annotations or takes the injection annotation off the pod
template during the restore; nobody creates the workload during it. A deleted source is not
created again, and an edit of its spec does not change the target. The Job names are fresh; the
name of the Job's ConfigMap may belong to another controller (`State.taken`), and whether it does
stays the same during the restore. A finished Job is not deleted; an active one may be. A deleted
workload or Job takes its pods with it. status.replicas reports the pods that exist. Looking at
the replica count and annotating the pod template is one step. Annotations are compared with
"true" only, so they are booleans. Clocks are numbers passed in.

**Findings.**
- A restore named like a replica of its namespace, its own source included, never ends. The
  ConfigMap it needs has the name of that replica's, which the replica controller owns, so every
  reconcile fails to take it over: the restore hangs in ScalingDown with the workload at zero and
  replication paused, although no API call fails and nothing forbids the name
  (`FreshTerminates`, `TakenNeverRuns`, `ReplayHang`).
- The pause window fails after a recent resume. If the replica controller is still catching up
  with the removal of the pause annotation when the restore is created (paused ConfigMap without
  the annotation, or a reconcile in flight with the older value), the restore takes the old paused
  text for its own, and the reconcile in flight then writes the full configuration while the
  restore Job is active. `WindowExact`: the window holds in every run exactly from the settled
  starts (`Invariant.Settled`, or the name is taken), which at rest means that an unpaused replica's ConfigMap does not
  hold the paused text (`WindowExactAtRest`); `ReplayWindow` lets the controller do it. From the same starts,
  and no others, the workload can be scaled up over a paused ConfigMap (`WaitExact`).
- The scale-up gate holds skip-archive-check exactly when nobody can carry a sight of the
  annotation from before the restore (`SkipExact`). With no reconcile in flight that means exactly
  when the annotation is not set, or no sidecar can be there to be seen (`SkipExactAtRest`).
  Otherwise a replica reconcile that saw a healthy sidecar before the pods were gone can remove the
  annotation between `setSkipArchiveCheck` and the scale-up, and the restored pod is blocked
  (`BlockedPod`, `ReplaySkip`). Runs in which the removal directly follows the health check are
  safe from every start.
- After the restore of a workload with several replicas skip-archive-check is never removed, since
  the health check is not reached for such a target (`SkipStaysForSeveral`). And while the restore
  has that workload at zero, the replica controller annotates its pod template, which it refuses
  to do for several replicas: after the scale-up several pods run a sidecar on one database
  (`SeveralSidecars`).
- A failed validation does not keep the application from the database: the clean-up scales the
  workload up on the very file that was rejected, although the comment of `reconcileValidating`
  says that validation catches corruption before the application restarts (`ReplayRejected`).
  Without a clean-up no pod starts before validation has succeeded (`ValidatedFirst`).
- A plain failure between Pausing and ScalingUp leaves replication paused for ever
  (`PauseAfterEnd`).
- The replica count is lost by three ends: a lookup error during the scale-up, which is passed
  over, leaves the workload at zero in phase Complete; `failRestore`, also on a transient error
  reading the replica, and a clean-up whose calls fail leave it at zero in phase Failed
  (`CountLost`, `LossesHappen`, `ReplayCompleteAtZero`, `ReplayFailAtZero`).
- A volume mounted at a parent of the database path is accepted, but the sidecar then replicates
  another file than the application writes (`ParentMountSplits`).
- A failed integrity check of the auto-restore container blocks one run only
  (`AutoRestoreTwice`), although its comment says that it blocks pod startup.
- A missing target is not reported while it stays missing: the reconcile returns before it
  reaches the status. WorkloadNotFound is written only if the target goes missing, or cannot be
  read, between the two lookups of one reconcile (`MissingReported`, `ReplicaController.Operate`).
- Auto-restore starts the pod unchecked on whatever a failing restore left behind (`AutoRestore`).
- The Ready condition goes stale on the two early returns of `updateStatus`
  (`ReadyConditionStale`).
- The API type says that startTime is when the restore Job was created; the code writes it when
  the restore enters Pausing and never again. The model follows the code.

## Model

| member | source | states |
|---|---|---|
| RunTheorems.SingleWriter | internal/controller/litestreamrestore_controller.go:182-236 | in every state of every run, while the restore Job is active a workload that exists wants no replicas and has no pods, also after a mid-run failure |
| RunTheorems.NoAdmissionDuringJobs | internal/controller/litestreamrestore_controller.go:205-344 | no pod is ever admitted while the restore or the validation Job is active |
| RunTheorems.PauseWindow | internal/controller/litestreamrestore_controller.go:160-224 | from a settled start, while either Job is active and the source exists, pause is set and the ConfigMap is exactly the paused text under any replica reconciles |
| RunTheorems.OwnConfig | internal/controller/litestreamrestore_controller.go:219-224 | from every start the restore Job has its own ConfigMap, which holds the full configuration of the spec last written to it and is never the paused text |
| Races.WindowExact | internal/controller/litestreamrestore_controller.go:160-179 | for every fresh restore of a usable replica: the pause window holds in all runs iff the start is settled or the name of the Job's ConfigMap is taken |
| Races.WindowExactAtRest | internal/controller/litestreamrestore_controller.go:160-179 | with no reconcile in flight at the start: iff the ConfigMap does not hold the paused text of an unpaused replica, or the name is taken |
| Replays.ReplayWindow | internal/controller/litestreamrestore_controller.go:121-246 | from every unsettled start with the name free the controller's own undisturbed reconciles, between moves of others, end with the Job active and the window broken |
| RunTheorems.StatusHistory | internal/controller/litestreamrestore_controller.go:784-808 | between any two points of a run the phase rank does not fall, terminal statuses are frozen, and replica count, start time and job name are write-once |
| RunTheorems.StatusShape | internal/controller/litestreamrestore_controller.go:227-245 | completion time exactly in terminal phases, start time exactly once begun, job name is name-restore from Running through Complete |
| RunTheorems.OriginalRecorded | internal/controller/litestreamrestore_controller.go:127-150 | whatever is retried, the recorded count stays what spec.replicas said before the restore, one if it said nothing |
| RunTheorems.TimesRecorded | internal/controller/litestreamrestore_controller.go:784-808 | start time is the time of the first status write and completion time that of the end, for ever after |
| RestorePlan.WritesInOrder | internal/controller/litestreamrestore_controller.go:121-526 | the writes of each phase and of the clean-up, in their order, where every step is still to be done |
| RunTheorems.CountConserved | internal/controller/litestreamrestore_controller.go:474-526 | for ever after any end, an existing workload wants its original count iff the end did not come while it was scaled to zero; Complete without a lookup error and Failed after a clean-up whose calls succeeded never come then |
| RunTheorems.CompleteConserves | internal/controller/litestreamrestore_controller.go:474-496 | Complete means original count restored in every run without the tolerated lookup error |
| RunTheorems.CountLost | internal/controller/litestreamrestore_controller.go:478-488 | at zero no restoring end is possible; a plain failure always is, Complete iff the gate is passed and the lookup fails, an incomplete clean-up iff the Jobs have failed, and each leaves the workload at zero |
| Races.LossesHappen | internal/controller/litestreamrestore_controller.go:480-515 | from every usable start that wants pods, with the name free, there is a run to Complete at zero and one to Failed at zero after a clean-up |
| Replays.ReplayCompleteAtZero | internal/controller/litestreamrestore_controller.go:478-496 | the controller itself completes at zero when the lookup is refused |
| Replays.ReplayFailAtZero | internal/controller/litestreamrestore_controller.go:501-526 | and fails at zero when the lookup of the clean-up is refused |
| RunTheorems.PauseAfterEnd | internal/controller/litestreamrestore_controller.go:517-526 | for ever after Complete or a clean-up whose calls succeeded an existing source is unpaused; for ever after a plain failure of a restore that holds the pause it is paused |
| RunTheorems.ValidatedFirst | internal/controller/litestreamrestore_controller.go:292-344 | a pod admitted after the restore Job was created comes after a successful validation, or after a clean-up scaled the workload up |
| Replays.ReplayRejected | internal/controller/litestreamrestore_controller.go:328-336 | after a failed validation one undisturbed reconcile lets a pod start on the rejected database |
| RunTheorems.TakenNeverRuns | internal/controller/litestreamrestore_controller.go:698-712 | with the name of the Job's ConfigMap taken, no run creates a Job, gets past ScalingDown or ends but by a plain failure |
| Replays.ReplayHang | internal/controller/litestreamrestore_controller.go:205-224 | and the controller, however often it reconciles, stays in ScalingDown with the workload down and replication paused |
| RunTheorems.EndIsFinal | internal/controller/litestreamrestore_controller.go:78-82 | no write of the restore controller is possible in a terminal phase |
| RunTheorems.ScaleUpGate | internal/controller/litestreamrestore_controller.go:441-491 | the success path raises the count only with both Jobs complete, no pods and pause gone, to exactly the original count; from a settled start also only with a ConfigMap that is not the paused text |
| Races.WaitExact | internal/controller/litestreamrestore_controller.go:457-471 | for a workload that wants pods, every raise comes with a ConfigMap that is not the paused text iff the start is settled or the name is taken |
| Replays.ReplayWait | internal/controller/litestreamrestore_controller.go:441-491 | from every other start the controller raises the count over the paused text |
| RunTheorems.ScaleUpGateWithSkip | internal/controller/litestreamrestore_controller.go:444-449 | and with skip set, if nobody can carry a sight of skip from the start or no removal is torn from its health check |
| Races.SkipExact | internal/controller/litestreamrestore_controller.go:444-449 | for a workload that wants pods, every raise comes with skip set iff nobody can carry a sight of skip from the start, or the name is taken |
| Replays.ReplaySkip | internal/controller/litestreamrestore_controller.go:441-491 | from every other start the controller raises the count without skip |
| Races.SkipExactAtRest | internal/controller/litestreamreplica_controller.go:476-481 | with no reconcile in flight at the start: iff not both skip is set and a sidecar can be seen, or the name is taken |
| RunTheorems.NoLateClear | internal/controller/litestreamreplica_controller.go:476-481 | from a start from which nobody can carry a sight of skip no reconcile removes the annotation before the scale-up |
| RunTheorems.PromptNoLateClear | internal/controller/litestreamreplica_controller.go:451-481 | nor does it in runs in which removal directly follows the health check |
| Races.BlockedPod | internal/webhook/sidecar_injector.go:225-231 | from every start that lets a sight of skip be carried, without auto-restore, there is a run in which the count is raised without skip and the pod admitted next is guarded |
| RunTheorems.FirstPodUnguarded | internal/webhook/sidecar_injector.go:225-231 | the first pod admitted after the scale-up carries no archive-check, if nobody can carry a sight of skip from the start or no removal is torn from its health check |
| RunTheorems.GuardedOnlyAfterHealth | internal/webhook/sidecar_injector.go:225-231 | under the same condition a pod admitted after the scale-up with archive-check comes after a healthy sidecar was there since the scale-up |
| RunTheorems.SkipAfterComplete | internal/controller/litestreamrestore_controller.go:447-449 | after Complete skip is set iff it was set then and no reconcile has removed it since; nobody sets it again |
| RunTheorems.ClearSawHealth | internal/controller/litestreamreplica_controller.go:472-481 | every removal is made by a reconcile that has itself found a healthy sidecar, in the run or, if it was already about to remove skip, before it |
| RunTheorems.SkipStaysForSeveral | internal/controller/litestreamreplica_controller.go:394-402 | after the scale-up of a workload that wants several pods skip stays set for ever |
| Races.SeveralSidecars | internal/controller/litestreamreplica_controller.go:270-277 | from every usable start with several wanted pods there is a run after which several injected pods exist |
| RunTheorems.GuardBackAfterClear | internal/webhook/sidecar_injector.go:225-231 | after the removal every pod admitted from an annotated template with backup on and auto-restore off is guarded again |
| Invariant.InvKept | internal/controller/litestreamrestore_controller.go:101-117 | every action of every actor keeps the invariant on status, replica count and Jobs |
| Invariant.InvAt | internal/controller/litestreamrestore_controller.go:67-117 | the invariant holds in every state of every run from a fresh restore |
| Invariant.PauseAt | internal/controller/litestreamrestore_controller.go:160-179 | from a settled start the invariant on annotation, ConfigMap and reconcile in flight holds in every state of every run |
| Interference.RelyStep | internal/controller/litestreamreplica_controller.go:79-118 | what no action of another actor changes about the objects the restore depends on, including what a look at annotation and ConfigMap has told |
| Interference.GuardStable | internal/controller/litestreamrestore_controller.go:156-497 | a guard that held when a write was prepared holds after any interference |
| RestoreController.ScanConditions | internal/controller/litestreamrestore_controller.go:260-286 | succeeded (failed) iff some True Complete (True Failed) comes before any other True Complete or Failed, open iff there is neither; conditions of other types or not True never matter |
| RestoreController.IsPausedText | internal/controller/litestreamrestore_controller.go:176-179 | comparing the text with the paused text tells paused from full configurations exactly |
| RestoreController.Restorer.Write | internal/controller/litestreamrestore_controller.go:232-236 | one API write under interference and faults: the run is extended by it or not at all, and the outcome says which; a served call is never left unknown |
| RestoreController.Restorer.PauseReplication | internal/controller/litestreamrestore_controller.go:529-539 | on success pause is set on a source that still exists |
| RestoreController.Restorer.ResumeReplication | internal/controller/litestreamrestore_controller.go:542-554 | on success pause is gone, nothing else is lost, skip stays held; it fails with every call served only if the source is gone |
| RestoreController.Restorer.SetSkipArchiveCheck | internal/controller/litestreamrestore_controller.go:559-583 | on success skip is held until the scale-up |
| RestoreController.Restorer.ScaleWorkload | internal/controller/workload.go:196-213 | on success an existing workload has exactly the given count; it fails with every call served only if the workload is gone |
| RestoreController.Restorer.ReconcilePending | internal/controller/litestreamrestore_controller.go:121-151 | keeps the run valid under any script; undisturbed makes exactly the planned writes; a refused workload lookup fails the restore |
| RestoreController.Restorer.ReconcilePausing | internal/controller/litestreamrestore_controller.go:156-201 | the same; scales down only after annotation and ConfigMap were seen paused |
| RestoreController.Restorer.CreateRestoreJob | internal/controller/litestreamrestore_controller.go:219-236 | writes the ConfigMap with the source's full configuration, then creates the Job, with the workload down throughout; with every call served it succeeds iff the ConfigMap's name is free |
| RestoreController.Restorer.ReconcileScalingDown | internal/controller/litestreamrestore_controller.go:205-246 | the same; creates the Job only after the pods are gone; a refused workload lookup fails the restore |
| RestoreController.Restorer.ReconcileRunning | internal/controller/litestreamrestore_controller.go:250-290 | the same; a missing or failed Job is abandoned with clean-up, a refused lookup writes nothing |
| RestoreController.Restorer.ReconcileValidating | internal/controller/litestreamrestore_controller.go:297-344 | the same for the validation Job |
| RestoreController.Restorer.OpenGate | internal/controller/litestreamrestore_controller.go:444-472 | when it lets through, skip is held, pause is gone and the ConfigMap was seen full |
| RestoreController.Restorer.ScaleBackUp | internal/controller/litestreamrestore_controller.go:474-488 | on success and without lookup error an existing workload wants its recorded count; with every call served there is no lookup error, whoever else moves |
| RestoreController.Restorer.ReconcileScalingUp | internal/controller/litestreamrestore_controller.go:441-497 | keeps the run valid; with every call served it ends in a Complete write without lookup error and the original count back, or leaves the status; undisturbed makes exactly the planned writes |
| RestoreController.Restorer.CleanupScale | internal/controller/litestreamrestore_controller.go:505-515 | a clean result means the recorded count, on the first run and on retries; with every call served it is clean unless the workload is gone |
| RestoreController.Restorer.FailRestoreWithCleanup | internal/controller/litestreamrestore_controller.go:501-526 | with every call served, whoever else moves, it ends in a Failed write, with the original count back unless workload or source is gone; undisturbed makes exactly the planned writes |
| RestoreController.Restorer.FailRestore | internal/controller/litestreamrestore_controller.go:776-781 | with every call served, whoever else moves, ends in a plain Failed write |
| RestoreController.Restorer.Reconcile | internal/controller/litestreamrestore_controller.go:67-117 | for every script a run stays a run; with every call served it leaves the status, or writes it and ends only with the count back or an object gone, or fails plainly because the source was missing or unfit; a refused read of the source fails the restore; undisturbed it makes exactly the planned writes |
| RestoreController.Restorer.Operate | internal/controller/litestreamrestore_controller.go:67-117 | any number of reconciles with crashes in between: single writer at every point passed, and from a settled start the pause window |
| Progress.PlanStage | internal/controller/litestreamrestore_controller.go:101-117 | once the others have caught up every planned write is enabled, and the measure drops, pods are still draining or the name is taken, from settled and unsettled starts alike |
| Progress.RoundDecreases | internal/controller/litestreamrestore_controller.go:156-344 | every round strictly lowers the measure made of phase, pods, Jobs and pause, unless the restore hangs, and then it still does |
| Progress.FreshTerminates | internal/controller/litestreamrestore_controller.go:101-117 | a terminal phase within the initial pod count plus eight rounds, whatever the Jobs decide, iff not both the source is usable and the name of the Job's ConfigMap is taken; otherwise the restore hangs with the workload down and replication paused |
| Progress.EndsWithCount | internal/controller/litestreamrestore_controller.go:441-526 | with a usable source and the name free, whatever the Jobs decide, an existing workload then wants its original count |
| Progress.Completes | internal/controller/litestreamrestore_controller.go:441-497 | with a usable source, the name free and successful Jobs that phase is Complete |
| Progress.RoundIsRun | internal/controller/litestreamrestore_controller.go:67-117 | every round is a stretch of a valid run |
| LitestreamConfig.BuildLitestreamConfigYaml | internal/controller/litestreamreplica_controller.go:157-198 | the accumulated text is the lines of the normalised view |
| LitestreamConfig.PrinterInjective | internal/controller/litestreamreplica_controller.go:157-198 | for newline-free fields two texts are equal iff database path, block presence, endpoint with scheme, bucket, trimmed path, retention and sync interval of the specs are |
| LitestreamConfig.PrinterReadable | internal/controller/litestreamreplica_controller.go:157-198 | a reader of the text finds under each key exactly the field of the spec that belongs there, iff it is set and backup with S3 is on |
| LitestreamConfig.PrinterHead | internal/controller/litestreamreplica_controller.go:157-168 | how every text starts, and the whole text without a replica block |
| LitestreamConfig.NeverPausedText | internal/controller/litestreamreplica_controller.go:56-61 | no printed configuration is the paused text, whatever the fields |
| LitestreamConfig.PausedTextIsPaused | internal/controller/litestreamreplica_controller.go:130-140 | the text comparison recognises the paused configuration and nothing else |
| LitestreamConfig.TrimKeepsPrefix | internal/controller/litestreamreplica_controller.go:183-188 | trimming removes exactly the trailing slashes |
| LitestreamConfig.BuildRestoreArgs | internal/controller/litestreamrestore_controller.go:610-623 | the argument list, whose last element is the path that a reader finds in the Job's own configuration |
| Injector.FindVolumeForPath | internal/webhook/sidecar_injector.go:540-556 | finds the earliest covering mount, fails iff the first container has none |
| Injector.Pod.AlreadyInjected | internal/webhook/sidecar_injector.go:115-122 | true iff some container is the sidecar |
| Injector.Pod.Inject | internal/webhook/sidecar_injector.go:154-240 | an error leaves the pod unchanged; success gives guard, own init containers, db-init, own containers, sidecar and the volumes |
| Injector.InjectedContainers | internal/webhook/sidecar_injector.go:154-240 | own init containers and containers stay in order; before them at most the guard that the spec calls for, after them db-init iff there is init SQL, and the sidecar last |
| Injector.InjectedMounts | internal/webhook/sidecar_injector.go:162-198 | what the added containers mount |
| Injector.InjectedVolumes | internal/webhook/sidecar_injector.go:200-222 | own volumes stay, followed by those of the replica's ConfigMaps; other annotations are kept |
| Injector.Handle | internal/webhook/sidecar_injector.go:76-140 | response and resulting pod for every annotation, reference and set of replicas that the API server serves |
| Injector.HandledExact | internal/webhook/sidecar_injector.go:83-104 | allowed iff the pod does not ask or has no reference, patched iff its reference names a served replica and a mount covers the database path, otherwise an error |
| Injector.HandleIdempotent | internal/webhook/sidecar_injector.go:76-122 | a patched pod handled again is allowed and unchanged, even if the replicas changed meanwhile; a pod that is not patched is unchanged |
| Injector.InjectedWellMounted | internal/webhook/sidecar_injector.go:200-240 | if every mount was declared before, every mount is declared after |
| Injector.SidecarFile | internal/webhook/sidecar_injector.go:162-184 | the sidecar resolves the database file at the root of the chosen volume |
| Injector.SameFile | internal/webhook/sidecar_injector.go:540-556 | the innermost mounts of application and sidecar resolve the database file to the same place iff the application's is at the database path and carries the chosen volume |
| Injector.ParentMountSplits | internal/webhook/sidecar_injector.go:545-549 | a parent mount passes the search and splits the two |
| StartGuard.DataVolume.ArchiveCheck | internal/webhook/sidecar_injector.go:336-373 | passes iff the database is tracked or there is no backup; only the probe file is touched, and a check of an untracked database that finishes leaves none |
| StartGuard.DataVolume.DbInit | internal/webhook/sidecar_injector.go:487-497 | runs the SQL iff its marker is missing, and leaves the marker |
| StartGuard.DataVolume.AutoRestore | internal/webhook/sidecar_injector.go:403-434 | blocks iff it restored a file itself, sqlite3 is there and the check fails; whatever a restore left, complete or partial, stays |
| StartGuard.DataVolume.AutoRestoreTwice | internal/webhook/sidecar_injector.go:405-408 | a second run lets the pod start on the unsound file |
| StartGuard.BlockedStart | internal/webhook/sidecar_injector.go:225-237 | a guarded pod over a missing or untracked database with a restorable or unreadable backup never starts anything but the guard, under any restarts, kills and recreations; volume and backup stay unchanged |
| StartGuard.GuardLetsPass | internal/webhook/sidecar_injector.go:336-373 | one undisturbed run moves on iff the check passes |
| StartGuard.GuardComesFirst | internal/webhook/sidecar_injector.go:381-381 | the guard precedes every other init container |
| StartGuard.InitSqlOnce | internal/webhook/sidecar_injector.go:475-497 | over any sequence of pod starts the SQL executed is the contents with later duplicates removed, for an injective hash |
| StartGuard.FirstOccurrencesOnce | internal/webhook/sidecar_injector.go:470-474 | which is each text, and none twice |
| Links.AdmissionAgrees | internal/webhook/sidecar_injector.go:225-231 | the webhook puts archive-check first exactly when the protocol's admission says guarded |
| Links.FirstPodStartsUnchecked | internal/webhook/sidecar_injector.go:225-231 | the container list of the first pod after a restore does not start with archive-check |
| Links.NeverHeld | internal/controller/litestreamrestore_controller.go:444-449 | if a healthy sidecar since the scale-up means a tracked database, no pod admitted after the scale-up is held by archive-check: it has none, or one undisturbed run of it moves on |
| Links.AnnotatedPodInjected | internal/controller/litestreamreplica_controller.go:264-302 | a pod made from a template the replica controller annotated is injected with that controller's replica |
| Links.HealthAgrees | internal/controller/litestreamreplica_controller.go:318-353 | the protocol's health of abstracted pods is the scan's verdict on the real statuses |
| Links.WriteAgrees | internal/controller/litestreamreplica_controller.go:123-145 | read and write of the protocol's pass leave the ConfigMap that the reconcile leaves, whatever fails afterwards |
| Links.PassAgrees | internal/controller/litestreamreplica_controller.go:79-118 | an undisturbed reconcile without a failed archive-check is a pass of the protocol: same ConfigMap, skip annotation and template |
| ReplicaController.LitestreamContainerState | internal/controller/litestreamreplica_controller.go:318-364 | the nested scan reports healthy iff some litestream container runs and none waits for one of the five failure reasons or ended with an error |
| ReplicaController.HealthIgnoresOrder | internal/controller/litestreamreplica_controller.go:309-353 | the verdict depends only on which statuses occur |
| ReplicaController.HealthPermuted | internal/controller/litestreamreplica_controller.go:309-353 | hence is invariant under permuting pods |
| ReplicaController.HealthPermutedWithin | internal/controller/litestreamreplica_controller.go:309-353 | and under permuting container statuses within pods |
| ReplicaController.ArchiveCheckState | internal/controller/litestreamreplica_controller.go:524-553 | failed iff backup is on and some archive-check container ended with an error |
| ReplicaController.StatusKept | internal/controller/litestreamreplica_controller.go:368-519 | every status update keeps: ready iff phase Ready, backupHealthy iff its condition, condition types unique |
| ReplicaController.StatusIdempotent | internal/controller/litestreamreplica_controller.go:368-519 | seeing the same twice computes the same status |
| ReplicaController.CountReported | internal/controller/litestreamreplica_controller.go:393-405 | with the target found, ReplicaCountExceeded is True iff more than one replica is wanted, whatever it said before |
| ReplicaController.StatusReports | internal/controller/litestreamreplica_controller.go:404-447 | past the count guard, ReplicationPaused is True iff paused, ArchiveCheckFailed iff a check failed and, if none did, SidecarInjected iff the template is annotated, whatever the list said before |
| ReplicaController.ReadyConditionStale | internal/controller/litestreamreplica_controller.go:394-428 | ready follows the Ready condition iff the update does not return early over a stale True |
| ReplicaController.ComputeStatus | internal/controller/litestreamreplica_controller.go:368-519 | the branches compute the specified status |
| ReplicaController.Reconciler.ReconcileInitSqlConfig | internal/controller/litestreamreplica_controller.go:209-257 | ConfigMap, hash and condition, for every combination of failing calls |
| ReplicaController.Reconciler.ReconcileTargetAnnotation | internal/controller/litestreamreplica_controller.go:264-302 | merges the three template keys, never for more than one replica |
| ReplicaController.Reconciler.UpdateStatus | internal/controller/litestreamreplica_controller.go:368-519 | status and end of skip, for every combination of failing calls |
| ReplicaController.SkipGoes | internal/controller/litestreamreplica_controller.go:451-481 | under every combination of faults skip is removed iff the status update is reached, finds at most one wanted replica and no failed archive-check, and the pod scan passes |
| ReplicaController.Reconciler.Reconcile | internal/controller/litestreamreplica_controller.go:79-118 | the reconcile under every combination of failing calls equals the specified one, about which the lemmas below are proved |
| ReplicaController.ReachesExact | internal/controller/litestreamreplica_controller.go:79-118 | which failing calls, and a missing target, keep a reconcile from its status |
| ReplicaController.ConfigWritten | internal/controller/litestreamreplica_controller.go:123-145 | the ConfigMap then holds the paused text iff the replica is paused, otherwise the text printed for its spec; it is untouched if its write fails |
| ReplicaController.StatusExact | internal/controller/litestreamreplica_controller.go:368-519 | exact conditions, on target and pods, for each phase, ready and backupHealthy |
| ReplicaController.ConditionsExact | internal/controller/litestreamreplica_controller.go:404-519 | each condition and its reason when the update goes all the way |
| ReplicaController.HealthConditionExact | internal/controller/litestreamreplica_controller.go:449-487 | the BackupHealthy condition and its reason |
| ReplicaController.EarlyConditionsExact | internal/controller/litestreamreplica_controller.go:374-428 | the conditions and reasons when it does not |
| ReplicaController.InitSqlExact | internal/controller/litestreamreplica_controller.go:209-257 | init SQL ConfigMap, hash and condition in terms of the spec |
| ReplicaController.ReconcileKept | internal/controller/litestreamreplica_controller.go:79-118 | every reconcile keeps the status invariant, whichever calls fail |
| ReplicaController.Operate | internal/controller/litestreamreplica_controller.go:79-118 | over any sequence of reconciles with faults and arbitrary changes in between: the status invariant, and as long as the target is missing phase, flags and every condition but InitSQLApplied stay as they were |
| ReplicaController.ReconcileFixedPoint | internal/controller/litestreamreplica_controller.go:79-118 | on a frozen cluster a second reconcile changes nothing |
| ReplicaController.TemplateFrame | internal/controller/workload.go:136-169 | unrelated template keys are kept, several replicas leave the target alone, otherwise the two annotations and the label are set |
| ReplicaController.UnreachedUnreported | internal/controller/litestreamreplica_controller.go:105-113 | a reconcile that does not reach the status update leaves phase, flags and every condition but InitSQLApplied alone |
| ReplicaController.MissingReported | internal/controller/litestreamreplica_controller.go:374-391 | the conditions come to say WorkloadNotFound iff the first lookup found the target, the second did not, and the status could be written |
| Conditions.LookupSet | internal/controller/litestreamreplica_controller.go:572-581 | setting a condition changes its type's entry and no other |
| Conditions.SetAllTwice | internal/controller/litestreamreplica_controller.go:572-581 | setting distinct conditions again changes nothing |
| ConfigRef.ResolveByCut | internal/webhook/sidecar_injector.go:127-140 | the webhook's reading of every reference |
| ConfigRef.ResolveByScan | internal/controller/litestreamreplica_controller.go:592-607 | the pod watch's reading, the same on every reference with a slash |
| ConfigRef.RefRoundTrip | internal/controller/litestreamreplica_controller.go:279-279 | a written reference with a slash-free, non-empty namespace is read back unchanged |
| ConfigRef.PointsExact | internal/webhook/sidecar_injector.go:127-140 | a reference splits at its first slash, and an empty namespace is the pod's own |

## Left out

- Two restores of one replica at a time, stale informer caches, outside edits of the annotations and outside scaling during a restore: the code does not guard against them.
- A change of owner of the Job's ConfigMap name during a restore, and hand edits of the pod template's injection annotation.
- Deletion of the LitestreamRestore object during a run, and Job deletion after the Job has finished.
- The message texts of statuses, events, logs and the pod-log excerpt of a failed Job.
- Images, environment variables, ports, resources, security contexts and Prometheus settings of containers and Jobs, beyond the mounts.
- The validating webhook of LitestreamReplica, a flat list of field checks.
- Manager set-up, metrics, TLS, leader election, charts and manifests.
- Litestream, sqlite3 and SHA-256 themselves: environment choices, or a function taken to be injective.
- subPath mounts, and mounts below the database path.
- A pod killed between running init SQL and writing its marker, after which the SQL runs again.
- Timestamps of conditions, and RFC 3339 parsing of the restore timestamp, which is passed through.

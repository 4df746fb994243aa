/** The protocol's abstractions of admission and health are exact. */
module Links {
  import opened Wrappers
  import opened LitestreamConfig
  import opened Cluster
  import opened Invariant
  import opened RunTheorems
  import opened Injector
  import ReplicaController
  import ConfigRef
  import StartGuard
  import Progress

  /** The replica CR as the webhook fetches it. */
  function Fetched(name: string, source: Source): Replica {
    Replica(name, source.spec, source.skip)
  }

  predicate StartsWithArchiveCheck(pod: PodSpec) {
    pod.inits != [] && pod.inits[0].name == ARCHIVE_CHECK
  }

  /** A pod that had no archive-check container of its own gets one exactly when the protocol says so. */
  lemma AdmissionAgrees(pod: PodSpec, name: string, source: Source, volume: string)
    requires Unchecked(pod)
    ensures StartsWithArchiveCheck(Injected(pod, Fetched(name, source), volume)) <==> AdmitsGuarded(source)
    ensures forall w: Workload | w.annotated ::
              Admitted(w, Some(source)).guarded <==>
                StartsWithArchiveCheck(Injected(pod, Fetched(name, source), volume))
  {
  }

  predicate Unchecked(pod: PodSpec) {
    forall c | c in pod.inits :: c.name != ARCHIVE_CHECK
  }

  /**
   From the restore's scale-up to the container list: the first pod that the webhook admits
   afterwards does not start with archive-check.
   */
  lemma FirstPodStartsUnchecked(
      s0: State, acts: seq<Action>, i: nat, j: nat, pod: PodSpec, name: string, volume: string)
    requires Fresh(s0) && ValidRun(s0, acts) && SkipSafe(s0, acts) && i < j < |acts|
    requires acts[i].RScaleUp? && acts[j].PodUp? && forall h | i < h < j :: !acts[h].PodUp?
    requires At(s0, acts, j).source.Some? && Unchecked(pod)
    ensures !StartsWithArchiveCheck(Injected(pod, Fetched(name, At(s0, acts, j).source.value), volume))
  {
    forall h | i <= h <= j
      ensures !HealthyNow(At(s0, acts, h))
    {
      NoPodYet(s0, acts, i, h);
    }
    SkipGoneAfterHealth(s0, acts, i, j);
    AdmissionAgrees(pod, name, At(s0, acts, j).source.value, volume);
  }

  /**
   What the skip annotation is for: no pod admitted after a restore's scale-up is held by
   archive-check. If a healthy sidecar since the scale-up means that the database is tracked
   (`disk` is the volume the pod starts on), one undisturbed run of the guard moves on, whatever
   the backup holds.
   */
  lemma NeverHeld(
      s0: State, acts: seq<Action>, i: nat, j: nat, pod: PodSpec, name: string, volume: string,
      disk: StartGuard.Disk, s3: nat, e: StartGuard.Event)
    requires Fresh(s0) && ValidRun(s0, acts) && SkipSafe(s0, acts) && i < j < |acts|
    requires acts[i].RScaleUp? && acts[j].PodUp? && At(s0, acts, j).source.Some? && Unchecked(pod)
    requires (exists h | i < h < j :: HealthyNow(At(s0, acts, h))) ==> disk.db.Some? && disk.stateDir
    requires e.Run? && e.life >= 3
    ensures var p := Injected(pod, Fetched(name, At(s0, acts, j).source.value), volume);
            StartsWithArchiveCheck(p) ==> StartGuard.Step(p, StartGuard.Boot(disk, s3, 0, []), e).next == 1
  {
    var db := Fetched(name, At(s0, acts, j).source.value);
    AdmissionAgrees(pod, name, At(s0, acts, j).source.value, volume);
    SkipGoneAfterHealth(s0, acts, i, j);
    if StartsWithArchiveCheck(Injected(pod, db, volume)) {
      StartGuard.GuardLetsPass(pod, db, volume, disk, s3, e);
    }
  }

  // ---- From the template's annotations to the injected pod ----

  /**
   A pod made from a template that the replica controller has annotated is injected with that
   controller's replica, if a volume covers the database path.
   */
  lemma AnnotatedPodInjected(
      t: ReplicaController.Target, ref: ConfigRef.Ref, pod: PodSpec, namespace: string, served: Served)
    requires t.Desired() <= 1 && ref.namespace != "" && '/' !in ref.namespace && ref in served
    requires pod.annotations == ReplicaController.AnnotatedTarget(t, ref.namespace + "/" + ref.name).annotations
    requires !HasSidecar(pod) && DataVolume(pod, served[ref].spec.databasePath).Some?
    ensures Handled(pod, namespace, served) ==
            (Patched, Injected(pod, served[ref], DataVolume(pod, served[ref].spec.databasePath).value))
  {
    ConfigRef.RefRoundTrip(ref, namespace);
  }

  // ---- Health ----

  ghost predicate HasSidecarThat(p: ReplicaController.PodStatus, running: bool) {
    exists cs | cs in p.containers ::
      cs.name == ReplicaController.SIDECAR && (if running then cs.running else ReplicaController.Failing(cs))
  }

  /** A pod's sidecar as the protocol sees it, from the statuses the replica controller scans. */
  ghost function SidecarOf(p: ReplicaController.PodStatus): Sidecar {
    if HasSidecarThat(p, false) then Crashed
    else if HasSidecarThat(p, true) then Up
    else if exists cs | cs in p.containers :: cs.name == ReplicaController.SIDECAR then Starting
    else NotInjected
  }

  /** The protocol's health of the abstracted pods is the scan's verdict on the real ones. */
  lemma HealthAgrees(pods: seq<ReplicaController.PodStatus>, seen: seq<Cluster.Pod>)
    requires |seen| == |pods| && forall i | 0 <= i < |pods| :: seen[i].sidecar == SidecarOf(pods[i])
    ensures Cluster.Healthy(seen) <==> ReplicaController.Healthy(pods)
  {
  }

  // ---- A reconcile of the replica controller is a pass of the protocol ----

  /** The protocol's state shows what this world holds. */
  ghost predicate Shows(s: State, w: ReplicaController.World) {
    && s.source == Some(Source(w.spec, w.pause, w.skip)) && s.config == w.config
    && (s.workload.Some? <==> w.target.Some?)
    && (s.workload.Some? ==>
          && s.workload.value.replicas == w.target.value.replicas
          && (s.workload.value.annotated <==> AsksForInjection(w.target.value))
          && |s.workload.value.pods| == |w.target.value.pods|
          && forall i | 0 <= i < |w.target.value.pods| ::
               s.workload.value.pods[i].sidecar == SidecarOf(w.target.value.pods[i]))
  }

  predicate AsksForInjection(t: ReplicaController.Target) {
    "litestream.io/inject" in t.annotations && t.annotations["litestream.io/inject"] == "true"
  }

  /** Read and write of the ConfigMap leave what the reconcile leaves, whatever of it fails afterwards. */
  lemma WriteAgrees(s: State, w: ReplicaController.World, f: ReplicaController.Faults, hash: string -> string)
    requires s.source == Some(Source(w.spec, w.pause, w.skip)) && s.pass.None? && !f.config
    ensures Enabled(s, ReplicaRead) && Enabled(Apply(s, ReplicaRead), ReplicaWrite)
    ensures Apply(Apply(s, ReplicaRead), ReplicaWrite).config == ReplicaController.Reconciled(w, f, hash).config
  {
    ReplicaController.InitStageKept(w.(config := Some(ReplicaController.ConfigOf(w))), f, hash);
  }

  /** An undisturbed reconcile without a failed archive-check is exactly a pass that checks health. */
  lemma PassAgrees(n0: nat, s: State, w: ReplicaController.World, hash: string -> string, o: Progress.Input)
    requires Inv(n0, s) && s.pass.None? && Shows(s, w) && o.checksHealth
    requires w.target.Some? ==> !(w.spec.backupEnabled && ReplicaController.ArchiveBlocked(w.target.value.pods))
    ensures Runs(s, Progress.PassActs(s, o))
    ensures Shows(After(s, Progress.PassActs(s, o)), ReplicaController.Reconciled(w, ReplicaController.NO_FAULTS, hash))
  {
    Progress.PassStage(n0, s, o);
    var f := ReplicaController.NO_FAULTS;
    ReplicaController.InitStageKept(w.(config := Some(ReplicaController.ConfigOf(w))), f, hash);
    ReplicaController.SkipGoes(w, f, hash);
    if w.target.Some? {
      HealthAgrees(w.target.value.pods, s.workload.value.pods);
      TargetAgrees(w.target.value, ReplicaController.Ref(w));
    }
  }

  /** What the template stage leaves of a target. */
  lemma TargetAgrees(t: ReplicaController.Target, ref: string)
    ensures var r := ReplicaController.AnnotatedTarget(t, ref);
            && r.replicas == t.replicas && r.pods == t.pods
            && (AsksForInjection(r) <==> AsksForInjection(t) || t.Desired() <= 1)
  {
  }
}

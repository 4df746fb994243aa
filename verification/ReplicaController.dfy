/**
 The replica controller (internal/controller/litestreamreplica_controller.go and workload.go):
 ConfigMaps, the target's pod template, and the status computed from what the pods report.
 */
module ReplicaController {
  import opened Wrappers
  import opened LitestreamConfig
  import opened Conditions

  // ---- What the pods report ----

  /** The three state pointers of a container status, each of which may be set. */
  datatype ContainerStatus = ContainerStatus(
    name: string, running: bool, waiting: Option<string>, terminated: Option<int>)

  datatype PodStatus = PodStatus(name: string, containers: seq<ContainerStatus>, inits: seq<ContainerStatus>)

  const SIDECAR := "litestream"
  const ARCHIVE_CHECK := "litestream-archive-check"

  predicate IsFailureReason(reason: string) {
    reason in {"CrashLoopBackOff", "OOMKilled", "Error", "ImagePullBackOff", "ErrImagePull"}
  }

  predicate Failing(cs: ContainerStatus) {
    (cs.waiting.Some? && IsFailureReason(cs.waiting.value)) || (cs.terminated.Some? && cs.terminated.value != 0)
  }

  /** `cs` is the status of a litestream sidecar in one of the pods. */
  predicate Sidecar(pods: seq<PodStatus>, cs: ContainerStatus) {
    cs.name == SIDECAR && exists p | p in pods :: cs in p.containers
  }

  /** Some sidecar runs and none is failing. */
  ghost predicate Healthy(pods: seq<PodStatus>) {
    && (exists cs :: Sidecar(pods, cs) && cs.running)
    && (forall cs | Sidecar(pods, cs) :: !Failing(cs))
  }

  /** An archive-check container that ended with an error. */
  predicate CheckFailed(cs: ContainerStatus) {
    cs.name == ARCHIVE_CHECK && cs.terminated.Some? && cs.terminated.value != 0
  }

  /** Some pod has one. */
  ghost predicate ArchiveBlocked(pods: seq<PodStatus>) {
    exists p, cs :: p in pods && cs in p.inits && CheckFailed(cs)
  }

  /** One pod's share of the scan. */
  method ScanPod(p: PodStatus) returns (running: nat, failed: nat)
    ensures running > 0 <==> exists cs | cs in p.containers :: cs.name == SIDECAR && cs.running
    ensures failed > 0 <==> exists cs | cs in p.containers :: cs.name == SIDECAR && Failing(cs)
  {
    running, failed := 0, 0;
    for i := 0 to |p.containers|
      invariant running > 0 <==> exists j | 0 <= j < i :: p.containers[j].name == SIDECAR && p.containers[j].running
      invariant failed > 0 <==> exists j | 0 <= j < i :: p.containers[j].name == SIDECAR && Failing(p.containers[j])
    {
      var cs := p.containers[i];
      if cs.name == SIDECAR {
        if cs.running {
          running := running + 1;
        }
        if cs.waiting.Some? && IsFailureReason(cs.waiting.value) {
          failed := failed + 1;
        }
        if cs.terminated.Some? && cs.terminated.value != 0 {
          failed := failed + 1;
        }
      }
    }
  }

  /** The health verdict over all pods. */
  method LitestreamContainerState(pods: seq<PodStatus>) returns (healthy: bool)
    ensures healthy <==> Healthy(pods)
    ensures healthy <==>
              && (exists p, cs :: p in pods && cs in p.containers && cs.name == "litestream" && cs.running)
              && (forall p, cs | p in pods && cs in p.containers && cs.name == "litestream" ::
                    && !(cs.waiting.Some? && cs.waiting.value in {
                             "CrashLoopBackOff", "OOMKilled", "Error", "ImagePullBackOff", "ErrImagePull"})
                    && !(cs.terminated.Some? && cs.terminated.value != 0))
  {
    HealthyExact(pods);
    var running, failed := 0, 0;
    for i := 0 to |pods|
      invariant running > 0 <==> exists cs :: Sidecar(pods[..i], cs) && cs.running
      invariant failed > 0 <==> exists cs :: Sidecar(pods[..i], cs) && Failing(cs)
    {
      var r, f := ScanPod(pods[i]);
      SidecarSnoc(pods, i);
      running, failed := running + r, failed + f;
    }
    assert pods[..|pods|] == pods;
    healthy := failed == 0 && running > 0;
  }

  /** Health in terms of what the statuses say. */
  lemma HealthyExact(pods: seq<PodStatus>)
    ensures Healthy(pods) <==>
              && (exists p, cs :: p in pods && cs in p.containers && cs.name == "litestream" && cs.running)
              && (forall p, cs | p in pods && cs in p.containers && cs.name == "litestream" ::
                    && !(cs.waiting.Some? && cs.waiting.value in {
                             "CrashLoopBackOff", "OOMKilled", "Error", "ImagePullBackOff", "ErrImagePull"})
                    && !(cs.terminated.Some? && cs.terminated.value != 0))
  {
    assert forall p, cs | p in pods && cs in p.containers && cs.name == "litestream" :: Sidecar(pods, cs);
  }

  lemma SidecarSnoc(pods: seq<PodStatus>, i: nat)
    requires i < |pods|
    ensures forall cs :: Sidecar(pods[..i + 1], cs) <==>
              Sidecar(pods[..i], cs) || (cs.name == SIDECAR && cs in pods[i].containers)
  {
  }

  /** The verdict depends only on which statuses occur: no order of pods or containers matters. */
  lemma HealthIgnoresOrder(p: seq<PodStatus>, q: seq<PodStatus>)
    requires forall cs :: Sidecar(p, cs) <==> Sidecar(q, cs)
    ensures Healthy(p) <==> Healthy(q)
  {
  }

  /** In particular it is invariant under permuting the pods. */
  lemma HealthPermuted(p: seq<PodStatus>, q: seq<PodStatus>)
    requires multiset(p) == multiset(q)
    ensures Healthy(p) <==> Healthy(q)
  {
    forall cs
      ensures Sidecar(p, cs) <==> Sidecar(q, cs)
    {
      assert forall x :: x in p <==> x in multiset(p);
      assert forall x :: x in q <==> x in multiset(q);
    }
    HealthIgnoresOrder(p, q);
  }

  /** And under permuting the container statuses within each pod. */
  lemma HealthPermutedWithin(p: seq<PodStatus>, q: seq<PodStatus>)
    requires |p| == |q|
    requires forall i | 0 <= i < |p| :: multiset(p[i].containers) == multiset(q[i].containers)
    ensures Healthy(p) <==> Healthy(q)
  {
    forall cs
      ensures Sidecar(p, cs) ==> Sidecar(q, cs)
      ensures Sidecar(q, cs) ==> Sidecar(p, cs)
    {
      forall i | 0 <= i < |p|
        ensures cs in p[i].containers <==> cs in q[i].containers
      {
        assert cs in p[i].containers <==> cs in multiset(p[i].containers);
        assert cs in q[i].containers <==> cs in multiset(q[i].containers);
      }
    }
    HealthIgnoresOrder(p, q);
  }

  lemma ArchiveBlockedExact(pods: seq<PodStatus>)
    ensures ArchiveBlocked(pods) <==>
              exists p, cs :: p in pods && cs in p.inits && cs.name == "litestream-archive-check" &&
                              cs.terminated.Some? && cs.terminated.value != 0
  {
    if exists p, cs :: p in pods && cs in p.inits && cs.name == "litestream-archive-check" &&
                       cs.terminated.Some? && cs.terminated.value != 0 {
      var p, cs :| p in pods && cs in p.inits && cs.name == "litestream-archive-check" &&
        cs.terminated.Some? && cs.terminated.value != 0;
      assert CheckFailed(cs);
    }
  }

  method ArchiveCheckState(backupEnabled: bool, pods: seq<PodStatus>) returns (failed: bool)
    ensures failed <==> backupEnabled && ArchiveBlocked(pods)
    ensures failed <==>
              && backupEnabled
              && exists p, cs :: p in pods && cs in p.inits && cs.name == "litestream-archive-check" &&
                                 cs.terminated.Some? && cs.terminated.value != 0
  {
    ArchiveBlockedExact(pods);
    if !backupEnabled {
      return false;
    }
    for i := 0 to |pods|
      invariant forall h, k | 0 <= h < i && 0 <= k < |pods[h].inits| :: !CheckFailed(pods[h].inits[k])
    {
      for j := 0 to |pods[i].inits|
        invariant forall k | 0 <= k < j :: !CheckFailed(pods[i].inits[k])
      {
        var cs := pods[i].inits[j];
        if cs.name == ARCHIVE_CHECK && cs.terminated.Some? && cs.terminated.value != 0 {
          assert pods[i] in pods && cs in pods[i].inits && CheckFailed(cs);
          return true;
        }
      }
    }
    return false;
  }

  // ---- The status ----

  datatype Phase = NoPhase | PendingPhase | ReadyPhase | PausedPhase | ErrorPhase

  datatype Status = Status(
    phase: Phase, ready: bool, backupHealthy: bool, initSQLHash: string, observed: int, conditions: seq<Condition>)

  /** What updateStatus finds out before it writes. */
  datatype Seen = Seen(
    generation: int, found: bool, desired: nat, paused: bool, archiveFailed: bool,
    annotated: bool, backupEnabled: bool, healthy: bool, anyReady: bool)

  /** updateStatus returns before it gets to the Ready condition. */
  predicate ReturnsEarly(o: Seen) { o.found && (o.desired > 1 || o.archiveFailed) }

  const NOT_INJECTED := Condition(SidecarInjected, false, "WorkloadNotFound")
  const NOT_HEALTHY := Condition(BackupHealthy, false, "WorkloadNotFound")
  const NOT_READY := Condition(Ready, false, "WorkloadNotFound")
  const TOO_MANY := Condition(ReplicaCountExceeded, true, "TooManyReplicas")
  const ARCHIVE_FAILED := Condition(ArchiveCheckFailed, true, "ArchiveCheckFailed")
  const ARCHIVE_PASSED := Condition(ArchiveCheckFailed, false, "ArchiveCheckPassed")

  function Updates(o: Seen): seq<Condition> {
    if !o.found then
      [NOT_INJECTED, NOT_HEALTHY, NOT_READY]
    else if o.desired > 1 then [TOO_MANY]
    else if o.archiveFailed then [PausedCondition(o), ARCHIVE_FAILED]
    else [PausedCondition(o), ARCHIVE_PASSED, InjectedCondition(o), HealthCondition(o), ReadyCondition(o)]
  }

  function PausedCondition(o: Seen): Condition {
    Condition(ReplicationPaused, o.paused, if o.paused then "PauseAnnotationSet" else "ReplicationActive")
  }

  function InjectedCondition(o: Seen): Condition {
    Condition(SidecarInjected, o.annotated, if o.annotated then "Annotated" else "AnnotationPending")
  }

  function HealthCondition(o: Seen): Condition {
    if !o.backupEnabled then Condition(BackupHealthy, false, "BackupDisabled")
    else Condition(BackupHealthy, o.healthy, if o.healthy then "SidecarRunning" else "SidecarUnhealthy")
  }

  function ReadyCondition(o: Seen): Condition {
    if o.paused then Condition(Ready, false, "ReplicationPaused")
    else if o.annotated && o.anyReady then Condition(Ready, true, "WorkloadReady")
    else Condition(Ready, false, "WorkloadNotReady")
  }

  function NewStatus(st: Status, o: Seen): Status {
    var kept := if o.found && o.desired <= 1 then Remove(st.conditions, ReplicaCountExceeded) else st.conditions;
    Status(
      if !o.found || ReturnsEarly(o) then ErrorPhase
      else if o.paused then PausedPhase
      else if o.annotated && o.anyReady then ReadyPhase else PendingPhase,
      o.found && !ReturnsEarly(o) && !o.paused && o.annotated && o.anyReady,
      if !o.found then false else if ReturnsEarly(o) then st.backupHealthy else o.backupEnabled && o.healthy,
      st.initSQLHash, o.generation,
      SetAll(kept, Updates(o)))
  }

  /** Ready is the Ready phase, BackupHealthy is its condition, and no condition type occurs twice. */
  predicate StatusOk(st: Status) {
    && (st.ready <==> st.phase.ReadyPhase?)
    && (st.backupHealthy <==> Holds(st.conditions, BackupHealthy))
    && Unique(st.conditions)
  }

  lemma UpdatesUnique(o: Seen)
    ensures Unique(Updates(o))
  {
  }

  /** Every status update keeps the invariant, whatever it sees. */
  lemma StatusKept(st: Status, o: Seen)
    requires StatusOk(st)
    ensures StatusOk(NewStatus(st, o))
  {
    UpdatesUnique(o);
    RemoveUnique(st.conditions, ReplicaCountExceeded);
    LookupRemove(st.conditions, ReplicaCountExceeded, BackupHealthy);
    var kept := if o.found && o.desired <= 1 then Remove(st.conditions, ReplicaCountExceeded) else st.conditions;
    SetAllUnique(kept, Updates(o));
    LookupSetAll(kept, Updates(o), BackupHealthy);
    HealthUpdate(o);
  }

  lemma HealthUpdate(o: Seen)
    ensures ReturnsEarly(o) ==> forall u | u in Updates(o) :: u.kind != BackupHealthy
    ensures !o.found ==> NOT_HEALTHY in Updates(o)
    ensures o.found && !ReturnsEarly(o) ==> HealthCondition(o) in Updates(o)
  {
  }

  lemma ExceededUntouched(o: Seen)
    requires o.found && o.desired <= 1
    ensures forall u | u in Updates(o) :: u.kind != ReplicaCountExceeded
  {
  }

  /** Seeing the same thing twice computes the same status. */
  lemma StatusIdempotent(st: Status, o: Seen)
    ensures NewStatus(NewStatus(st, o), o) == NewStatus(st, o)
  {
    var t := NewStatus(st, o);
    UpdatesUnique(o);
    var clears := o.found && o.desired <= 1;
    var kept := if clears then Remove(st.conditions, ReplicaCountExceeded) else st.conditions;
    SetAllTwice(kept, Updates(o));
    if clears {
      ExceededUntouched(o);
      LookupRemove(st.conditions, ReplicaCountExceeded, ReplicaCountExceeded);
      LookupSetAll(kept, Updates(o), ReplicaCountExceeded);
      RemoveNoOp(t.conditions, ReplicaCountExceeded);
    }
  }

  /**
   The Ready field follows the Ready condition exactly when the update does not return early over
   a stale True condition.
   */
  lemma ReadyConditionStale(st: Status, o: Seen)
    requires StatusOk(st)
    ensures var t := NewStatus(st, o);
            (t.ready <==> Holds(t.conditions, Ready)) <==> !(ReturnsEarly(o) && Holds(st.conditions, Ready))
  {
    UpdatesUnique(o);
    LookupRemove(st.conditions, ReplicaCountExceeded, Ready);
    var kept := if o.found && o.desired <= 1 then Remove(st.conditions, ReplicaCountExceeded) else st.conditions;
    LookupSetAll(kept, Updates(o), Ready);
    if o.found && !ReturnsEarly(o) {
      assert Updates(o)[4] == ReadyCondition(o);
    } else if !o.found {
      assert Updates(o)[2] == NOT_READY;
    }
  }

  /** After an update every type it touches carries the update's own condition. */
  lemma Reported(st: Status, o: Seen, i: nat)
    requires i < |Updates(o)|
    ensures Lookup(NewStatus(st, o).conditions, Updates(o)[i].kind) == Some(Updates(o)[i])
  {
    UpdatesUnique(o);
    var kept := if o.found && o.desired <= 1 then Remove(st.conditions, ReplicaCountExceeded) else st.conditions;
    LookupSetAll(kept, Updates(o), Updates(o)[i].kind);
  }

  /** The count condition says, whenever the target is found, whether it wants more than one pod. */
  lemma CountReported(st: Status, o: Seen)
    requires o.found
    ensures Holds(NewStatus(st, o).conditions, ReplicaCountExceeded) <==> o.desired > 1
  {
    if o.desired > 1 {
      Reported(st, o, 0);
    } else {
      UpdatesUnique(o);
      ExceededUntouched(o);
      LookupRemove(st.conditions, ReplicaCountExceeded, ReplicaCountExceeded);
      LookupSetAll(Remove(st.conditions, ReplicaCountExceeded), Updates(o), ReplicaCountExceeded);
    }
  }

  /** What the conditions say after an update that gets past the count, whatever they said before. */
  lemma StatusReports(st: Status, o: Seen)
    requires o.found && o.desired <= 1
    ensures Holds(NewStatus(st, o).conditions, ReplicationPaused) <==> o.paused
    ensures Holds(NewStatus(st, o).conditions, ArchiveCheckFailed) <==> o.archiveFailed
    ensures !o.archiveFailed ==> (Holds(NewStatus(st, o).conditions, SidecarInjected) <==> o.annotated)
  {
    Reported(st, o, 0);
    Reported(st, o, 1);
    if !o.archiveFailed {
      Reported(st, o, 2);
    }
  }

  // ---- The whole reconcile ----

  /** The target workload: spec.replicas, ready pods, pod template annotations and labels, pods. */
  datatype Target = Target(
    replicas: Option<nat>, ready: nat, annotations: map<string, string>, labels: map<string, string>,
    pods: seq<PodStatus>)
  {
    function Desired(): nat { if replicas.Some? then replicas.value else 1 }
  }

  datatype World = World(
    namespace: string, name: string, generation: int, spec: ReplicaSpec, pause: bool, skip: bool, status: Status,
    config: Option<Config>, initConfig: Option<string>, target: Option<Target>)

  const INJECT := "litestream.io/inject"
  const CONFIG := "litestream.io/config"

  function Ref(w: World): string { w.namespace + "/" + w.name }

  function Value(m: map<string, string>, k: string): string { if k in m then m[k] else "" }

  predicate TemplateReady(t: Target, ref: string) {
    Value(t.annotations, INJECT) == "true" && Value(t.annotations, CONFIG) == ref && Value(t.labels, INJECT) == "true"
  }

  function AnnotatedTarget(t: Target, ref: string): Target {
    if t.Desired() > 1 || TemplateReady(t, ref) then t
    else t.(annotations := t.annotations[INJECT := "true"][CONFIG := ref], labels := t.labels[INJECT := "true"])
  }

  function ConfigOf(w: World): Config { if w.pause then Paused else Full(w.spec) }

  /** Which API calls fail in this reconcile; `getTargetAgain` also stands for a target deleted in between. */
  datatype Faults = Faults(
    config: bool, initConfig: bool, initStatus: bool, getTarget: bool, patchTemplate: bool,
    getTargetAgain: bool, listForArchive: bool, listForHealth: bool, clearSkip: bool, status: bool)

  const NO_FAULTS := Faults(false, false, false, false, false, false, false, false, false, false)

  const NO_INIT_SQL := Condition(InitSQLApplied, false, "NoInitSQL")
  const INIT_SQL_READY := Condition(InitSQLApplied, true, "ConfigMapReady")

  function WithHash(w: World, hash: string, c: Condition): World {
    w.(status := w.status.(initSQLHash := hash, conditions := Set(w.status.conditions, c)))
  }

  /** reconcileInitSQLConfig: the ConfigMap, and the hash with its condition when the hash changed. */
  function InitSqlStage(w: World, f: Faults, hash: string -> string): (World, bool) {
    if w.spec.initSQL == "" then
      if w.status.initSQLHash == "" then (w, true)
      else if f.initStatus then (w, false)
      else (WithHash(w, "", NO_INIT_SQL), true)
    else if f.initConfig then (w, false)
    else
      var h := hash(w.spec.initSQL);
      var v := w.(initConfig := Some(w.spec.initSQL));
      if w.status.initSQLHash == h then (v, true)
      else if f.initStatus then (v, false)
      else (WithHash(v, h, INIT_SQL_READY), true)
  }

  /** reconcileTargetAnnotation gets through. */
  predicate Annotates(w: World, f: Faults) {
    && !f.getTarget && w.target.Some?
    && (w.target.value.Desired() > 1 || TemplateReady(w.target.value, Ref(w)) || !f.patchTemplate)
  }

  /** What updateStatus reads; a failed lookup counts as not found, a failed pod list as no finding. */
  ghost function Observe(w: World, f: Faults): Seen
    requires w.target.Some?
  {
    if f.getTargetAgain then
      Seen(w.generation, false, 0, w.pause, false, false, w.spec.backupEnabled, false, false)
    else
      var t := w.target.value;
      Seen(w.generation, true, t.Desired(), w.pause,
           !f.listForArchive && w.spec.backupEnabled && ArchiveBlocked(t.pods),
           Value(t.annotations, INJECT) == "true", w.spec.backupEnabled,
           !f.listForHealth && Healthy(t.pods), t.ready > 0)
  }

  /** The health check was reached and passed, so skip-archive-check goes. */
  predicate ClearsSkip(o: Seen) { o.found && !ReturnsEarly(o) && o.backupEnabled && o.healthy }

  ghost function StatusStage(w: World, f: Faults): World
    requires w.target.Some?
  {
    var o := Observe(w, f);
    w.(status := if f.status then w.status else NewStatus(w.status, o),
       skip := w.skip && !(ClearsSkip(o) && !f.clearSkip))
  }

  /** The reconcile gets as far as updateStatus. */
  predicate Reaches(w: World, f: Faults, hash: string -> string) {
    !f.config && InitSqlStage(w, f, hash).1 && Annotates(w, f)
  }

  /** Exactly which failures, and a missing target, keep a reconcile from its status. */
  lemma ReachesExact(w: World, f: Faults, hash: string -> string)
    ensures Reaches(w, f, hash) <==>
              && !f.config
              && (w.spec.initSQL != "" ==> !f.initConfig)
              && (f.initStatus ==>
                    w.status.initSQLHash == if w.spec.initSQL != "" then hash(w.spec.initSQL) else "")
              && !f.getTarget && w.target.Some?
              && (f.patchTemplate ==>
                    || (w.target.value.replicas.Some? && w.target.value.replicas.value > 1)
                    || (&& Value(w.target.value.annotations, "litestream.io/inject") == "true"
                        && Value(w.target.value.annotations, "litestream.io/config") == w.namespace + "/" + w.name
                        && Value(w.target.value.labels, "litestream.io/inject") == "true"))
  {
  }

  /** One reconcile. Without a target it stops before the status. */
  ghost function Reconciled(w: World, f: Faults, hash: string -> string): World {
    if f.config then w
    else
      var (v, ok) := InitSqlStage(w.(config := Some(ConfigOf(w))), f, hash);
      if ok && Annotates(v, f) then
        StatusStage(v.(target := Some(AnnotatedTarget(v.target.value, Ref(v)))), f)
      else v
  }

  class Reconciler {
    var w: World

    constructor (world: World)
      ensures w == world
    {
      w := world;
    }

    method ReconcileInitSqlConfig(f: Faults, hash: string -> string) returns (ok: bool)
      modifies this
      ensures (w, ok) == InitSqlStage(old(w), f, hash)
    {
      var st := w.status;
      if w.spec.initSQL == "" {
        if st.initSQLHash != "" {
          if f.initStatus {
            return false;
          }
          w := w.(status := st.(initSQLHash := "", conditions := Set(st.conditions, NO_INIT_SQL)));
        }
        return true;
      }
      var h := hash(w.spec.initSQL);
      if f.initConfig {
        return false;
      }
      w := w.(initConfig := Some(w.spec.initSQL));
      if st.initSQLHash == h {
        return true;
      }
      if f.initStatus {
        return false;
      }
      w := w.(status := st.(initSQLHash := h, conditions := Set(st.conditions, INIT_SQL_READY)));
      return true;
    }

    /** A target with more than one replica is left alone; otherwise the three keys are merged in. */
    method ReconcileTargetAnnotation(f: Faults) returns (ok: bool)
      modifies this
      ensures ok <==> Annotates(old(w), f)
      ensures w == if ok
                   then old(w).(target := Some(AnnotatedTarget(old(w).target.value, Ref(old(w)))))
                   else old(w)
    {
      if f.getTarget || w.target.None? {
        return false;
      }
      var t := w.target.value;
      if t.Desired() > 1 {
        return true;
      }
      var ref := w.namespace + "/" + w.name;
      if TemplateReady(t, ref) {
        return true;
      }
      if f.patchTemplate {
        return false;
      }
      w := w.(target := Some(t.(annotations := t.annotations[INJECT := "true"][CONFIG := ref],
              labels := t.labels[INJECT := "true"])));
      return true;
    }

    method Look(f: Faults) returns (o: Seen)
      requires w.target.Some?
      ensures o == Observe(w, f)
    {
      if f.getTargetAgain {
        return Seen(w.generation, false, 0, w.pause, false, false, w.spec.backupEnabled, false, false);
      }
      var t := w.target.value;
      var archiveFailed, healthy := false, false;
      if !f.listForArchive {
        archiveFailed := ArchiveCheckState(w.spec.backupEnabled, t.pods);
      }
      if !f.listForHealth {
        healthy := LitestreamContainerState(t.pods);
      }
      return Seen(w.generation, true, t.Desired(), w.pause, archiveFailed,
                  Value(t.annotations, INJECT) == "true", w.spec.backupEnabled, healthy, t.ready > 0);
    }

    /** Computes and writes the status; a healthy sidecar ends the skip annotation. */
    method UpdateStatus(f: Faults) returns (ok: bool)
      requires w.target.Some?
      modifies this
      ensures w == StatusStage(old(w), f)
      ensures ok <==> !f.status
    {
      var o := Look(f);
      var st := ComputeStatus(w.status, o);
      if ClearsSkip(o) && w.skip && !f.clearSkip {
        w := w.(skip := false);
      }
      ok := !f.status;
      if ok {
        w := w.(status := st);
      }
    }

    method Reconcile(f: Faults, hash: string -> string)
      modifies this
      ensures w == Reconciled(old(w), f, hash)
    {
      if f.config {
        return;
      }
      w := w.(config := Some(if w.pause then Paused else Full(w.spec)));
      var ok := ReconcileInitSqlConfig(f, hash);
      if !ok {
        return;
      }
      ok := ReconcileTargetAnnotation(f);
      if !ok {
        return;
      }
      ok := UpdateStatus(f);
    }
  }

  // ---- What every reconcile keeps, whichever of its calls fail ----

  lemma InitStageKept(w: World, f: Faults, hash: string -> string)
    ensures var v := InitSqlStage(w, f, hash).0;
            && v == w.(status := v.status, initConfig := v.initConfig)
            && SameReport(w.status, v.status)
            && (Unique(w.status.conditions) ==> Unique(v.status.conditions))
  {
    InitConditionKept(w.status.conditions, NO_INIT_SQL);
    InitConditionKept(w.status.conditions, INIT_SQL_READY);
  }

  /** The same verdicts on the target, whatever is said about the init SQL. */
  ghost predicate SameReport(a: Status, b: Status) {
    && a.phase == b.phase && a.ready == b.ready && a.backupHealthy == b.backupHealthy && a.observed == b.observed
    && forall k | k != InitSQLApplied :: Lookup(a.conditions, k) == Lookup(b.conditions, k)
  }

  lemma ReconcileKept(w: World, f: Faults, hash: string -> string)
    requires StatusOk(w.status)
    ensures StatusOk(Reconciled(w, f, hash).status)
  {
    if !f.config {
      var w0 := w.(config := Some(ConfigOf(w)));
      InitStageKept(w0, f, hash);
      var (v, ok) := InitSqlStage(w0, f, hash);
      if ok && Annotates(v, f) {
        StatusKept(v.status, Observe(v.(target := Some(AnnotatedTarget(v.target.value, Ref(v)))), f));
      }
    }
  }

  /** A reconcile that does not get to updateStatus leaves the report alone. */
  lemma UnreachedUnreported(w: World, f: Faults, hash: string -> string)
    requires !Reaches(w, f, hash)
    ensures SameReport(w.status, Reconciled(w, f, hash).status) && Reconciled(w, f, hash).skip == w.skip
  {
    InitStageKept(w.(config := Some(ConfigOf(w))), f, hash);
  }

  /**
   Skip-archive-check goes exactly when updateStatus is reached, finds a target that wants at most
   one pod and has no failed archive-check, and the pod scan passes.
   */
  lemma SkipGoes(w: World, f: Faults, hash: string -> string)
    ensures Reconciled(w, f, hash).skip ==> w.skip
    ensures w.skip && !Reconciled(w, f, hash).skip <==>
              && w.skip && Reaches(w, f, hash) && !f.getTargetAgain && w.target.value.Desired() <= 1
              && (f.listForArchive || !ArchiveBlocked(w.target.value.pods))
              && w.spec.backupEnabled && !f.listForHealth && Healthy(w.target.value.pods) && !f.clearSkip
  {
    InitStageKept(w.(config := Some(ConfigOf(w))), f, hash);
  }

  // ---- What a reconcile leaves behind, in terms of what it found ----

  /** The ConfigMap: the paused text exactly for a paused replica, otherwise the text printed for its spec. */
  lemma ConfigWritten(w: World, f: Faults, hash: string -> string)
    ensures f.config ==> Reconciled(w, f, hash).config == w.config
    ensures !f.config ==>
              var c := Reconciled(w, f, hash).config;
              && c.Some? && (c.value.Text() == "dbs: []\n" <==> w.pause)
              && (!w.pause ==> c.value.Text() == Yaml(ViewOf(w.spec)))
  {
    InitStageKept(w.(config := Some(ConfigOf(w))), f, hash);
    PausedTextIsPaused(ConfigOf(w));
  }

  /** The target wants at most one pod; no number given counts as one. */
  predicate WantsOne(t: Target) { t.replicas.None? || t.replicas.value <= 1 }

  /** An archive-check failed, as far as the pods could be listed. */
  ghost predicate FoundBlocked(w: World, f: Faults)
    requires w.target.Some?
  {
    w.spec.backupEnabled && !f.listForArchive && ArchiveBlocked(w.target.value.pods)
  }

  /** updateStatus goes all the way: the target is found again, wants one pod and is not blocked. */
  ghost predicate GoesThrough(w: World, f: Faults)
    requires w.target.Some?
  {
    !f.getTargetAgain && WantsOne(w.target.value) && !FoundBlocked(w, f)
  }

  /** The world that updateStatus sees, when it is reached. */
  lemma SeenByStatus(w: World, f: Faults, hash: string -> string) returns (v: World)
    requires Reaches(w, f, hash)
    ensures v.target.Some? && Reconciled(w, f, hash) == StatusStage(v, f)
    ensures v.target.value == AnnotatedTarget(w.target.value, Ref(w))
    ensures v.spec == w.spec && v.pause == w.pause && v.generation == w.generation && v.skip == w.skip
    ensures SameReport(w.status, v.status)
  {
    var w0 := w.(config := Some(ConfigOf(w)));
    InitStageKept(w0, f, hash);
    var u := InitSqlStage(w0, f, hash).0;
    v := u.(target := Some(AnnotatedTarget(u.target.value, Ref(u))));
  }

  /**
   When the status is what: the phase, the ready and backupHealthy fields and the observed
   generation after a reconcile that reaches the status and writes it.
   */
  lemma StatusExact(w: World, f: Faults, hash: string -> string)
    requires Reaches(w, f, hash) && !f.status
    ensures var st, t := Reconciled(w, f, hash).status, w.target.value;
            && (st.phase == ErrorPhase <==> !GoesThrough(w, f))
            && (st.phase == PausedPhase <==> GoesThrough(w, f) && w.pause)
            && (st.phase == ReadyPhase <==> GoesThrough(w, f) && !w.pause && t.ready > 0)
            && (st.phase == PendingPhase <==> GoesThrough(w, f) && !w.pause && t.ready == 0)
            && (st.ready <==> GoesThrough(w, f) && !w.pause && t.ready > 0)
            && (GoesThrough(w, f) ==>
                  (st.backupHealthy <==> w.spec.backupEnabled && !f.listForHealth && Healthy(t.pods)))
            && (!GoesThrough(w, f) && !f.getTargetAgain ==> st.backupHealthy == w.status.backupHealthy)
            && (f.getTargetAgain ==> !st.backupHealthy)
            && st.observed == w.generation
  {
    var v := SeenByStatus(w, f, hash);
    AnnotatedForStatus(w);
  }

  /** With at most one wanted pod the template is annotated by the time of the status. */
  lemma AnnotatedForStatus(w: World)
    requires w.target.Some?
    ensures WantsOne(w.target.value) <==> w.target.value.Desired() <= 1
    ensures WantsOne(w.target.value) ==>
              Value(AnnotatedTarget(w.target.value, Ref(w)).annotations, INJECT) == "true"
    ensures AnnotatedTarget(w.target.value, Ref(w)).pods == w.target.value.pods
    ensures AnnotatedTarget(w.target.value, Ref(w)).replicas == w.target.value.replicas
    ensures AnnotatedTarget(w.target.value, Ref(w)).ready == w.target.value.ready
  {
  }

  /** And the conditions of such a reconcile when it goes all the way, with their reasons. */
  lemma ConditionsExact(w: World, f: Faults, hash: string -> string)
    requires Reaches(w, f, hash) && !f.status && GoesThrough(w, f)
    ensures var cs := Reconciled(w, f, hash).status.conditions;
            && Lookup(cs, ReplicationPaused) == Some(Condition(
                   ReplicationPaused, w.pause, if w.pause then "PauseAnnotationSet" else "ReplicationActive"))
            && Lookup(cs, ArchiveCheckFailed) == Some(Condition(ArchiveCheckFailed, false, "ArchiveCheckPassed"))
            && Lookup(cs, SidecarInjected) == Some(Condition(SidecarInjected, true, "Annotated"))
            && Lookup(cs, Ready) == Some(
                 if w.pause then Condition(Ready, false, "ReplicationPaused")
                 else if w.target.value.ready > 0 then Condition(Ready, true, "WorkloadReady")
                 else Condition(Ready, false, "WorkloadNotReady"))
            && Lookup(cs, ReplicaCountExceeded).None?
  {
    var v := SeenByStatus(w, f, hash);
    AnnotatedForStatus(w);
    var o := Observe(v, f);
    Reported(v.status, o, 0);
    Reported(v.status, o, 1);
    Reported(v.status, o, 2);
    Reported(v.status, o, 4);
    CountCleared(v.status, o);
  }

  lemma HealthConditionExact(w: World, f: Faults, hash: string -> string)
    requires Reaches(w, f, hash) && !f.status && GoesThrough(w, f)
    ensures var healthy := !f.listForHealth && Healthy(w.target.value.pods);
            Lookup(Reconciled(w, f, hash).status.conditions, BackupHealthy) == Some(
              if !w.spec.backupEnabled then Condition(BackupHealthy, false, "BackupDisabled")
              else if healthy then Condition(BackupHealthy, true, "SidecarRunning")
              else Condition(BackupHealthy, false, "SidecarUnhealthy"))
  {
    var v := SeenByStatus(w, f, hash);
    AnnotatedForStatus(w);
    Reported(v.status, Observe(v, f), 3);
  }

  /** The conditions when it does not. */
  lemma EarlyConditionsExact(w: World, f: Faults, hash: string -> string)
    requires Reaches(w, f, hash) && !f.status && !GoesThrough(w, f)
    ensures var cs := Reconciled(w, f, hash).status.conditions;
            && (f.getTargetAgain ==>
                  && Lookup(cs, SidecarInjected) == Some(Condition(SidecarInjected, false, "WorkloadNotFound"))
                  && Lookup(cs, BackupHealthy) == Some(Condition(BackupHealthy, false, "WorkloadNotFound"))
                  && Lookup(cs, Ready) == Some(Condition(Ready, false, "WorkloadNotFound")))
            && (!f.getTargetAgain && !WantsOne(w.target.value) ==>
                  Lookup(cs, ReplicaCountExceeded) == Some(Condition(ReplicaCountExceeded, true, "TooManyReplicas")))
            && (!f.getTargetAgain && WantsOne(w.target.value) ==>
                  Lookup(cs, ArchiveCheckFailed) == Some(Condition(ArchiveCheckFailed, true, "ArchiveCheckFailed")))
  {
    var v := SeenByStatus(w, f, hash);
    AnnotatedForStatus(w);
    var o := Observe(v, f);
    Reported(v.status, o, 0);
    if f.getTargetAgain {
      Reported(v.status, o, 1);
      Reported(v.status, o, 2);
    } else if WantsOne(w.target.value) {
      Reported(v.status, o, 1);
    }
  }

  lemma CountCleared(st: Status, o: Seen)
    requires o.found && o.desired <= 1
    ensures Lookup(NewStatus(st, o).conditions, ReplicaCountExceeded).None?
  {
    UpdatesUnique(o);
    ExceededUntouched(o);
    LookupRemove(st.conditions, ReplicaCountExceeded, ReplicaCountExceeded);
    LookupSetAll(Remove(st.conditions, ReplicaCountExceeded), Updates(o), ReplicaCountExceeded);
  }

  /** The init SQL part of a status update: none. */
  lemma InitUntouched(st: Status, o: Seen)
    ensures NewStatus(st, o).initSQLHash == st.initSQLHash
    ensures Lookup(NewStatus(st, o).conditions, InitSQLApplied) == Lookup(st.conditions, InitSQLApplied)
  {
    UpdatesUnique(o);
    LookupRemove(st.conditions, ReplicaCountExceeded, InitSQLApplied);
    var kept := if o.found && o.desired <= 1 then Remove(st.conditions, ReplicaCountExceeded) else st.conditions;
    LookupSetAll(kept, Updates(o), InitSQLApplied);
  }

  /**
   The init SQL: with SQL in the spec its ConfigMap holds exactly that SQL and the status its hash;
   without, the ConfigMap is left and the hash goes; the condition changes with the hash only.
   */
  lemma InitSqlExact(w: World, f: Faults, hash: string -> string)
    requires !f.config && !f.initConfig && !f.initStatus
    ensures var r := Reconciled(w, f, hash);
            && r.initConfig == (if w.spec.initSQL != "" then Some(w.spec.initSQL) else w.initConfig)
            && r.status.initSQLHash == (if w.spec.initSQL != "" then hash(w.spec.initSQL) else "")
            && Lookup(r.status.conditions, InitSQLApplied) ==
                 (if r.status.initSQLHash == w.status.initSQLHash then Lookup(w.status.conditions, InitSQLApplied)
                  else if w.spec.initSQL != "" then Some(Condition(InitSQLApplied, true, "ConfigMapReady"))
                  else Some(Condition(InitSQLApplied, false, "NoInitSQL")))
  {
    var w0 := w.(config := Some(ConfigOf(w)));
    InitStageKept(w0, f, hash);
    var (u, ok) := InitSqlStage(w0, f, hash);
    LookupSet(w.status.conditions, NO_INIT_SQL, InitSQLApplied);
    LookupSet(w.status.conditions, INIT_SQL_READY, InitSQLApplied);
    if ok && Annotates(u, f) {
      InitUntouched(u.status, Observe(u.(target := Some(AnnotatedTarget(u.target.value, Ref(u)))), f));
    }
  }

  /** The conditions that updateStatus sets for a target it cannot find. */
  predicate ListsMissing(st: Status) {
    && Lookup(st.conditions, SidecarInjected) == Some(NOT_INJECTED)
    && Lookup(st.conditions, BackupHealthy) == Some(NOT_HEALTHY)
    && Lookup(st.conditions, Ready) == Some(NOT_READY)
  }

  /** An update that returns early leaves those conditions alone. */
  lemma EarlyKeepsConditions(st: Status, o: Seen, k: Kind)
    requires ReturnsEarly(o) && k in {SidecarInjected, BackupHealthy, Ready}
    ensures Lookup(NewStatus(st, o).conditions, k) == Lookup(st.conditions, k)
  {
    UpdatesUnique(o);
    LookupRemove(st.conditions, ReplicaCountExceeded, k);
    var kept := if o.desired <= 1 then Remove(st.conditions, ReplicaCountExceeded) else st.conditions;
    LookupSetAll(kept, Updates(o), k);
  }

  lemma MissingStatus(st: Status, o: Seen)
    requires !ListsMissing(st)
    ensures ListsMissing(NewStatus(st, o)) <==> !o.found
  {
    if !o.found {
      Reported(st, o, 0);
      Reported(st, o, 1);
      Reported(st, o, 2);
    } else if ReturnsEarly(o) {
      EarlyKeepsConditions(st, o, SidecarInjected);
      EarlyKeepsConditions(st, o, BackupHealthy);
      EarlyKeepsConditions(st, o, Ready);
    } else {
      Reported(st, o, 2);
    }
  }

  /**
   The status comes to report a missing target exactly when the target went missing, or could not
   be read, between the two lookups of one reconcile and the status could be written.
   */
  lemma MissingReported(w: World, f: Faults, hash: string -> string)
    requires !ListsMissing(w.status)
    ensures ListsMissing(Reconciled(w, f, hash).status) <==> Reaches(w, f, hash) && f.getTargetAgain && !f.status
  {
    if Reaches(w, f, hash) {
      var w0 := w.(config := Some(ConfigOf(w)));
      InitStageKept(w0, f, hash);
      var v := InitSqlStage(w0, f, hash).0;
      MissingStatus(v.status, Observe(v.(target := Some(AnnotatedTarget(v.target.value, Ref(v)))), f));
    } else {
      UnreachedUnreported(w, f, hash);
    }
  }

  /**
   Any number of reconciles, each failing where its faults say, with everything but the status
   replaced at will in between. While the target is missing, nothing is ever said about it.
   */
  method Operate(r: Reconciler, rounds: seq<(World, Faults)>, hash: string -> string)
    modifies r
    ensures StatusOk(old(r.w).status) ==> StatusOk(r.w.status)
    ensures (forall i | 0 <= i < |rounds| :: rounds[i].0.target.None?) ==> SameReport(old(r.w).status, r.w.status)
  {
    for i := 0 to |rounds|
      invariant StatusOk(old(r.w).status) ==> StatusOk(r.w.status)
      invariant (forall j | 0 <= j < i :: rounds[j].0.target.None?) ==> SameReport(old(r.w).status, r.w.status)
    {
      r.w := rounds[i].0.(status := r.w.status);
      if StatusOk(r.w.status) {
        ReconcileKept(r.w, rounds[i].1, hash);
      }
      if r.w.target.None? {
        UnreachedUnreported(r.w, rounds[i].1, hash);
      }
      r.Reconcile(rounds[i].1, hash);
    }
  }

  lemma InitConditionKept(cs: seq<Condition>, c: Condition)
    requires c.kind == InitSQLApplied
    ensures Unique(cs) ==> Unique(Set(cs, c))
    ensures forall k | k != InitSQLApplied :: Lookup(Set(cs, c), k) == Lookup(cs, k)
  {
    forall k | k != InitSQLApplied
      ensures Lookup(Set(cs, c), k) == Lookup(cs, k)
    {
      LookupSet(cs, c, k);
    }
    if Unique(cs) {
      SetUnique(cs, c);
    }
  }

  /** The status, branch by branch. */
  method ComputeStatus(st: Status, o: Seen) returns (r: Status)
    ensures r == NewStatus(st, o)
  {
    if !o.found {
      var cs := Set(st.conditions, NOT_INJECTED);
      cs := Set(cs, NOT_HEALTHY);
      cs := Set(cs, NOT_READY);
      SetAllThree(st.conditions, NOT_INJECTED, NOT_HEALTHY, NOT_READY);
      return st.(phase := ErrorPhase, ready := false, backupHealthy := false,
                 observed := o.generation, conditions := cs);
    }
    if o.desired > 1 {
      SetAllSnoc(st.conditions, [], TOO_MANY);
      assert [] + [TOO_MANY] == Updates(o);
      return st.(phase := ErrorPhase, ready := false,
                 observed := o.generation, conditions := Set(st.conditions, TOO_MANY));
    }
    r := SingleWriterStatus(st, o);
  }

  /** The conditions that the rest of updateStatus sets, for a target with at most one replica. */
  method SingleWriterConditions(kept: seq<Condition>, o: Seen) returns (cs: seq<Condition>)
    requires o.found && o.desired <= 1
    ensures cs == SetAll(kept, Updates(o))
  {
    cs := Set(kept, PausedCondition(o));
    if o.archiveFailed {
      cs := Set(cs, ARCHIVE_FAILED);
      SetAllTwo(kept, PausedCondition(o), ARCHIVE_FAILED);
      return;
    }
    cs := Set(cs, ARCHIVE_PASSED);
    cs := Set(cs, InjectedCondition(o));
    cs := Set(cs, HealthCondition(o));
    cs := Set(cs, ReadyCondition(o));
    SetAllFive(kept, PausedCondition(o), ARCHIVE_PASSED, InjectedCondition(o), HealthCondition(o), ReadyCondition(o));
  }

  method SingleWriterStatus(st: Status, o: Seen) returns (r: Status)
    requires o.found && o.desired <= 1
    ensures r == NewStatus(st, o)
  {
    var cs := SingleWriterConditions(Remove(st.conditions, ReplicaCountExceeded), o);
    r := st.(observed := o.generation, conditions := cs);
    if o.archiveFailed {
      return r.(phase := ErrorPhase, ready := false);
    }
    r := r.(backupHealthy := o.backupEnabled && o.healthy);
    if o.paused {
      return r.(phase := PausedPhase, ready := false);
    }
    if o.annotated && o.anyReady {
      return r.(phase := ReadyPhase, ready := true);
    }
    return r.(phase := PendingPhase, ready := false);
  }

  // ---- A reconcile on a frozen cluster is a fixed point ----

  predicate InitSettled(w: World, hash: string -> string) {
    if w.spec.initSQL == "" then w.status.initSQLHash == ""
    else w.status.initSQLHash == hash(w.spec.initSQL) && w.initConfig == Some(w.spec.initSQL)
  }

  lemma InitSettles(w: World, hash: string -> string)
    ensures InitSqlStage(w, NO_FAULTS, hash).1 && InitSettled(InitSqlStage(w, NO_FAULTS, hash).0, hash)
    ensures InitSettled(w, hash) ==> InitSqlStage(w, NO_FAULTS, hash).0 == w
  {
  }

  lemma AnnotateIdempotent(t: Target, ref: string)
    ensures AnnotatedTarget(AnnotatedTarget(t, ref), ref) == AnnotatedTarget(t, ref)
  {
  }

  /** Template keys that are not the operator's are kept, and a target with several replicas is left alone. */
  lemma TemplateFrame(t: Target, ref: string, k: string)
    requires k != INJECT && k != CONFIG
    ensures var r := AnnotatedTarget(t, ref);
            && (k in r.annotations <==> k in t.annotations)
            && (k in t.annotations ==> r.annotations[k] == t.annotations[k])
            && (k in r.labels <==> k in t.labels) && (k in t.labels ==> r.labels[k] == t.labels[k])
            && r.replicas == t.replicas && r.pods == t.pods && r.ready == t.ready
            && (t.replicas.Some? && t.replicas.value > 1 ==> r == t)
            && (ref != "" && (t.replicas.None? || t.replicas.value <= 1) ==> Asking(r, ref))
  {
  }

  /** The template asks for injection with this replica, by annotations and by label. */
  predicate Asking(t: Target, ref: string) {
    && "litestream.io/inject" in t.annotations && t.annotations["litestream.io/inject"] == "true"
    && "litestream.io/config" in t.annotations && t.annotations["litestream.io/config"] == ref
    && "litestream.io/inject" in t.labels && t.labels["litestream.io/inject"] == "true"
  }

  /** A second reconcile changes nothing: no ConfigMap, template, annotation or status write, so no rollout loop. */
  lemma ReconcileFixedPoint(w: World, hash: string -> string)
    ensures var r := Reconciled(w, NO_FAULTS, hash); Reconciled(r, NO_FAULTS, hash) == r
  {
    var w0 := w.(config := Some(ConfigOf(w)));
    var w1 := InitSqlStage(w0, NO_FAULTS, hash).0;
    InitSettles(w0, hash);
    InitStageKept(w0, NO_FAULTS, hash);
    if w1.target.None? {
      InitSettles(w1, hash);
    } else {
      var w2 := w1.(target := Some(AnnotatedTarget(w1.target.value, Ref(w1))));
      var r := StatusStage(w2, NO_FAULTS);
      AnnotateIdempotent(w1.target.value, Ref(w1));
      assert InitSettled(r, hash) && r.config == Some(ConfigOf(r));
      InitSettles(r, hash);
      StatusStageIdempotent(w2);
    }
  }

  lemma StatusStageIdempotent(w: World)
    requires w.target.Some?
    ensures StatusStage(StatusStage(w, NO_FAULTS), NO_FAULTS) == StatusStage(w, NO_FAULTS)
  {
    StatusIdempotent(w.status, Observe(w, NO_FAULTS));
  }
}

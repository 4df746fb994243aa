/**
 The shared cluster objects of a coordinated restore, and every atomic action on them:
 the restore controller's API writes and the moves of everybody else.

 An action has a `Guard` (what must hold whenever the action is taken) and a `Target`
 (the object it needs is there, or is not there yet for a create). `Apply` is its effect.
 */
module Cluster {
  import opened Wrappers
  import opened LitestreamConfig

  datatype Phase =
    | Unset | Pending | Pausing | ScalingDown | Running | Validating | ScalingUp | Complete | Failed

  datatype Status = Status(
    phase: Phase, jobName: string, original: Option<nat>, start: Option<nat>, completion: Option<nat>)

  // ---- Jobs ----

  datatype JobConditionType = JobComplete | JobFailed | JobOther
  datatype JobCondition = JobCondition(kind: JobConditionType, isTrue: bool)
  type Job = seq<JobCondition>
  datatype Verdict = Open | Succeeded | Broken

  /** The first condition that is True and of type Complete or Failed decides a Job. */
  function VerdictOf(job: Job): Verdict {
    if job == [] then Open
    else if job[0].isTrue && job[0].kind.JobComplete? then Succeeded
    else if job[0].isTrue && job[0].kind.JobFailed? then Broken
    else VerdictOf(job[1..])
  }

  predicate Active(job: Option<Job>) { job.Some? && VerdictOf(job.value) == Open }
  predicate Done(job: Option<Job>, v: Verdict) { job.Some? && VerdictOf(job.value) == v }

  // ---- Workload, pods and the source replica ----

  datatype Sidecar = NotInjected | Starting | Up | Crashed
  datatype Pod = Pod(guarded: bool, sidecar: Sidecar)

  /** `replicas` is spec.replicas (nil allowed); status.replicas reports the pods that exist;
      `annotated` says that the pod template asks for injection. */
  datatype Workload = Workload(replicas: Option<nat>, pods: seq<Pod>, annotated: bool) {
    function Desired(): nat { if replicas.Some? then replicas.value else 1 }
  }

  /** Some sidecar is up and none has crashed. */
  predicate Healthy(pods: seq<Pod>) {
    (exists p | p in pods :: p.sidecar.Up?) && (forall p | p in pods :: !p.sidecar.Crashed?)
  }

  /** `pause` and `skip` say that the annotation's value is "true". */
  datatype Source = Source(spec: ReplicaSpec, pause: bool, skip: bool)

  /** The webhook adds the archive-check container to a pod that it injects now. */
  predicate AdmitsGuarded(source: Source) {
    source.spec.backupEnabled && !source.spec.autoRestore && !source.skip
  }

  /** A pod admitted now, as the webhook leaves it. */
  function Admitted(w: Workload, source: Option<Source>): Pod {
    if w.annotated && source.Some? then Pod(AdmitsGuarded(source.value), Starting) else Pod(false, NotInjected)
  }

  /** A replica reconcile in flight: what it read, and how far it has come. */
  datatype Pass = Pass(spec: ReplicaSpec, pause: bool, skip: bool, wrote: bool, clearing: bool)

  /**
   `taken` says that the name of the restore Job's ConfigMap belongs to another controller, so
   that the restore cannot write it. The last two fields are history. `lateClear`: a replica
   reconcile removed skip-archive-check during ScalingUp while the workload was still at zero.
   `torn`: since the pause annotation got its present value, a ConfigMap that agreed with it was
   overwritten by a replica reconcile that had read the other value.
   */
  datatype State = State(
    restoreName: string,
    taken: bool,
    status: Status,
    source: Option<Source>,
    config: Option<Config>,
    restoreConfig: Option<Config>,
    workload: Option<Workload>,
    restoreJob: Option<Job>,
    validateJob: Option<Job>,
    pass: Option<Pass>,
    lateClear: bool,
    torn: bool)

  // ---- Actions ----

  datatype Action =
      // Writes of the restore controller.
    | RPause
    | RToPausing(original: nat, now: nat)
    | RScaleDown
    | RToScalingDown
    | RRestoreConfig(spec: ReplicaSpec)
    | RCreateRestoreJob
    | RToRunning(now: nat)
    | RToValidating
    | RCreateValidateJob
    | RToScalingUp
    | RSetSkip
    | RResume
    | RScaleUp(n: nat)
    | RCleanupScaleUp(n: nat)
    | RComplete(lookupFailed: bool, now: nat)
    | RFail(now: nat)
    | RFailCleanup(clean: bool, now: nat)
      // The replica controller: read the CR, write the ConfigMap, annotate the pod template, see a
      // healthy sidecar, remove skip-archive-check, end (finished, failed or crashed).
    | ReplicaRead
    | ReplicaWrite
    | ReplicaAnnotate
    | ReplicaObserve
    | ReplicaClear
    | ReplicaEnd
      // Workload controller, kubelet, Job controller, users, garbage collection.
    | PodUp
    | PodDown(i: nat)
    | PodSidecar(i: nat, sidecar: Sidecar)
    | WorkloadDeleted
    | SourceDeleted
    | ConfigCollected
    | SpecEdited(spec: ReplicaSpec)
    | RestoreJobReport(cond: JobCondition)
    | ValidateJobReport(cond: JobCondition)
    | RestoreJobDeleted
    | ValidateJobDeleted

  /** The restore controller's writes to its own status. */
  predicate IsStatusWrite(a: Action) {
    match a
    case RToPausing(_, _) | RToScalingDown | RToRunning(_) | RToValidating | RToScalingUp
       | RComplete(_, _) | RFail(_) | RFailCleanup(_, _) => true
    case _ => false
  }

  /** The restore controller's writes to other objects. */
  predicate IsObjectWrite(a: Action) {
    match a
    case RPause | RScaleDown | RRestoreConfig(_) | RCreateRestoreJob | RCreateValidateJob
       | RSetSkip | RResume | RScaleUp(_) | RCleanupScaleUp(_) => true
    case _ => false
  }

  predicate IsReplica(a: Action) {
    || a.ReplicaRead? || a.ReplicaWrite? || a.ReplicaAnnotate? || a.ReplicaObserve?
    || a.ReplicaClear? || a.ReplicaEnd?
  }

  predicate IsJob(a: Action) {
    a.RestoreJobReport? || a.ValidateJobReport? || a.RestoreJobDeleted? || a.ValidateJobDeleted?
  }

  predicate IsRestore(a: Action) { IsStatusWrite(a) || IsObjectWrite(a) }

  // ---- State predicates ----

  /** The source is there and fit to restore from. */
  predicate Usable(s: State) {
    s.source.Some? && s.source.value.spec.backupEnabled && s.source.value.spec.s3.Some?
  }

  predicate Terminal(p: Phase) { p.Complete? || p.Failed? }

  predicate Early(p: Phase) { p.Unset? || p.Pending? }

  /** No writer: the workload is gone, or wants no pods and has none. */
  predicate Down(s: State) {
    s.workload.Some? ==> s.workload.value.Desired() == 0 && s.workload.value.pods == []
  }

  predicate Idle(s: State) { s.workload.Some? && s.workload.value.Desired() == 0 }

  /** The ConfigMap says about replication what the annotation says. */
  predicate Agrees(config: Option<Config>, pause: bool) {
    config.Some? && (config.value.Paused? <==> pause)
  }

  /**
   All that looking at the annotation and then at the ConfigMap tells: the annotation is as seen,
   and since it got this value the ConfigMap has agreed with it, if not now then earlier.
   */
  predicate Checked(s: State, pause: bool) {
    s.source.Some? ==> s.source.value.pause == pause && (Agrees(s.config, pause) || s.torn)
  }

  /** Skip is set, or was when the restore looked during ScalingUp. */
  predicate SkipHeld(s: State) {
    s.source.Some? && Idle(s) ==> s.source.value.skip || s.lateClear
  }

  /** Steps 1 to 3 of the scale-up are behind: skip set, pause removed, ConfigMap seen full. */
  predicate GatePassed(s: State) {
    s.status.phase.ScalingUp? && SkipHeld(s) && Checked(s, false)
  }

  /** The restore is about to be abandoned with a clean-up: its Job failed or is gone. */
  predicate Abandoned(s: State) {
    || (s.status.phase.Running? && (s.restoreJob.None? || Done(s.restoreJob, Broken)))
    || (s.status.phase.Validating? && Done(s.validateJob, Broken))
  }

  // ---- Guards, targets and effects ----

  predicate Guard(s: State, a: Action) {
    match a
    case RPause => Early(s.status.phase) || s.status.phase.Pausing?
    case RToPausing(n, _) =>
      && Early(s.status.phase)
      && (s.workload.Some? ==> n == s.workload.value.Desired())
      && (s.source.Some? ==> s.source.value.pause)
    case RScaleDown => s.status.phase.Pausing? && Checked(s, true)
    case RToScalingDown =>
      && s.status.phase.Pausing? && Checked(s, true)
      && (s.workload.Some? ==> s.workload.value.replicas == Some(0))
    case RRestoreConfig(_) => s.status.phase.ScalingDown? && Down(s)
    case RCreateRestoreJob => s.status.phase.ScalingDown? && Down(s) && s.restoreConfig.Some?
    case RToRunning(_) => s.status.phase.ScalingDown? && Down(s) && s.restoreConfig.Some?
    case RToValidating => s.status.phase.Running? && Done(s.restoreJob, Succeeded)
    case RCreateValidateJob => s.status.phase.Validating?
    case RToScalingUp => s.status.phase.Validating? && Done(s.validateJob, Succeeded)
    case RSetSkip => s.status.phase.ScalingUp?
    case RResume => (s.status.phase.ScalingUp? && SkipHeld(s)) || Abandoned(s)
    case RScaleUp(n) =>
      && GatePassed(s)
      && s.status.original == Some(n) && n > 0
      && (s.workload.Some? ==> s.workload.value.replicas != Some(n))
    case RCleanupScaleUp(n) =>
      && Abandoned(s)
      && s.status.original == Some(n) && n > 0
      && (s.workload.Some? ==> s.workload.value.replicas != Some(n))
    case RComplete(lookupFailed, _) =>
      && GatePassed(s)
      && (!lookupFailed && s.workload.Some? ==> s.status.original == Some(s.workload.value.Desired()))
    case RFail(_) => !Terminal(s.status.phase)
    case RFailCleanup(clean, _) =>
      && Abandoned(s)
      && (clean ==>
            && (s.workload.Some? ==> s.status.original == Some(s.workload.value.Desired()))
            && (s.source.Some? ==> !s.source.value.pause))
    case ReplicaRead => s.pass.None?
    case ReplicaWrite => s.pass.Some? && !s.pass.value.wrote
    case ReplicaAnnotate =>
      s.pass.Some? && s.pass.value.wrote && s.workload.Some? && s.workload.value.Desired() <= 1
    case ReplicaObserve =>
      && s.pass.Some? && s.pass.value.wrote && s.pass.value.skip && s.pass.value.spec.backupEnabled
      && s.workload.Some? && s.workload.value.Desired() <= 1 && Healthy(s.workload.value.pods)
    case ReplicaClear => s.pass.Some? && s.pass.value.clearing
    case ReplicaEnd => s.pass.Some?
    case PodUp => s.workload.Some? && s.workload.value.Desired() > 0
    case PodDown(i) => s.workload.Some? && i < |s.workload.value.pods|
    case PodSidecar(i, sc) =>
      && s.workload.Some? && i < |s.workload.value.pods|
      && !s.workload.value.pods[i].sidecar.NotInjected? && !sc.NotInjected?
    case ConfigCollected => s.source.None?
    case RestoreJobReport(_) => Active(s.restoreJob)
    case ValidateJobReport(_) => Active(s.validateJob)
    case RestoreJobDeleted => Active(s.restoreJob)
    case ValidateJobDeleted => Active(s.validateJob)
    case WorkloadDeleted | SourceDeleted | SpecEdited(_) => true
  }

  predicate Target(s: State, a: Action) {
    match a
    case RPause | RSetSkip | RResume | ReplicaRead | SpecEdited(_) => s.source.Some?
    case RScaleDown | RScaleUp(_) | RCleanupScaleUp(_) => s.workload.Some?
    case RRestoreConfig(_) => !s.taken
    case RCreateRestoreJob => s.restoreJob.None?
    case RCreateValidateJob => s.validateJob.None?
    case _ => true
  }

  predicate Enabled(s: State, a: Action) { Guard(s, a) && Target(s, a) }

  /** setStatus on the controller's copy: job name, replica count and start time are kept once written. */
  function SetStatus(st: Status, phase: Phase, jobName: string, original: Option<nat>,
                     start: Option<nat>, completion: Option<nat>): Status
  {
    Status(phase,
           if jobName != "" then jobName else st.jobName,
           if original.Some? && st.original.None? then original else st.original,
           if start.Some? && st.start.None? then start else st.start,
           if completion.Some? then completion else st.completion)
  }

  function RestoreJobName(s: State): string { s.restoreName + "-restore" }

  /** The status a restore-controller status write leaves behind. */
  function StatusAfter(s: State, a: Action): Status {
    var st := s.status;
    match a
    case RToPausing(n, now) => SetStatus(st, Pausing, st.jobName, Some(n), Some(now), None)
    case RToScalingDown => SetStatus(st, ScalingDown, st.jobName, st.original, st.start, None)
    case RToRunning(now) => SetStatus(st, Running, RestoreJobName(s), st.original, Some(now), None)
    case RToValidating => SetStatus(st, Validating, st.jobName, st.original, st.start, None)
    case RToScalingUp => SetStatus(st, ScalingUp, st.jobName, st.original, st.start, None)
    case RComplete(_, now) => SetStatus(st, Complete, st.jobName, st.original, st.start, Some(now))
    case RFail(now) => SetStatus(st, Failed, "", None, Some(now), Some(now))
    case RFailCleanup(_, now) => SetStatus(st, Failed, st.jobName, st.original, st.start, Some(now))
    case _ => st
  }

  /** The ConfigMap agrees with the annotation, and this reconcile is about to change that. */
  predicate Tears(s: State, p: Pass) {
    && s.source.Some? && Agrees(s.config, s.source.value.pause)
    && p.pause != s.source.value.pause
  }

  function ScaleTo(s: State, n: nat): State
    requires s.workload.Some?
  {
    s.(workload := Some(s.workload.value.(replicas := Some(n))))
  }

  function WithPods(s: State, pods: seq<Pod>): State
    requires s.workload.Some?
  {
    s.(workload := Some(s.workload.value.(pods := pods)))
  }

  function Apply(s: State, a: Action): State
    requires Enabled(s, a)
  {
    match a
    case RPause => s.(source := Some(s.source.value.(pause := true)), torn := false)
    case RScaleDown => ScaleTo(s, 0)
    case RRestoreConfig(spec) => s.(restoreConfig := Some(Full(spec)))
    case RCreateRestoreJob => s.(restoreJob := Some([]))
    case RCreateValidateJob => s.(validateJob := Some([]))
    case RSetSkip => s.(source := Some(s.source.value.(skip := true)))
    case RResume => s.(source := Some(s.source.value.(pause := false)), torn := false)
    case RScaleUp(n) => ScaleTo(s, n)
    case RCleanupScaleUp(n) => ScaleTo(s, n)
    case ReplicaRead =>
      var src := s.source.value;
      s.(pass := Some(Pass(src.spec, src.pause, src.skip, false, false)))
    case ReplicaWrite =>
      var p := s.pass.value;
      s.(config := Some(if p.pause then Paused else Full(p.spec)), pass := Some(p.(wrote := true)),
         torn := s.torn || Tears(s, p))
    case ReplicaAnnotate => s.(workload := Some(s.workload.value.(annotated := true)))
    case ReplicaObserve => s.(pass := Some(s.pass.value.(clearing := true)))
    case ReplicaClear =>
      s.(source := if s.source.Some? then Some(s.source.value.(skip := false)) else None,
         pass := None,
         lateClear := s.lateClear ||
         (s.source.Some? && s.source.value.skip && s.status.phase.ScalingUp? && Idle(s)))
    case ReplicaEnd => s.(pass := None)
    case PodUp => WithPods(s, s.workload.value.pods + [Admitted(s.workload.value, s.source)])
    case PodDown(i) => WithPods(s, s.workload.value.pods[..i] + s.workload.value.pods[i + 1..])
    case PodSidecar(i, sc) =>
      WithPods(s, s.workload.value.pods[i := s.workload.value.pods[i].(sidecar := sc)])
    case WorkloadDeleted => s.(workload := None)
    case SourceDeleted => s.(source := None)
    case ConfigCollected => s.(config := None)
    case SpecEdited(spec) => s.(source := Some(s.source.value.(spec := spec)))
    case RestoreJobReport(c) => s.(restoreJob := Some(s.restoreJob.value + [c]))
    case ValidateJobReport(c) => s.(validateJob := Some(s.validateJob.value + [c]))
    case RestoreJobDeleted => s.(restoreJob := None)
    case ValidateJobDeleted => s.(validateJob := None)
    case _ => s.(status := StatusAfter(s, a))
  }

  lemma NameByRestore(s: State, a: Action)
    requires Enabled(s, a) && IsRestore(a)
    ensures Apply(s, a).restoreName == s.restoreName && Apply(s, a).taken == s.taken
  {
  }

  lemma NameByOthers(s: State, a: Action)
    requires Enabled(s, a) && !IsRestore(a)
    ensures Apply(s, a).restoreName == s.restoreName && Apply(s, a).taken == s.taken
  {
  }

  // ---- Runs ----

  /** A sequence of actions, each enabled where it is taken. */
  predicate ValidRun(s0: State, acts: seq<Action>)
    decreases |acts|, 0
  {
    acts == [] ||
    (var n := |acts| - 1;
     ValidRun(s0, acts[..n]) && Enabled(Final(s0, acts[..n]), acts[n]))
  }

  function Final(s0: State, acts: seq<Action>): State
    requires ValidRun(s0, acts)
    decreases |acts|, 1
  {
    if acts == [] then s0
    else var n := |acts| - 1; Apply(Final(s0, acts[..n]), acts[n])
  }

  /** Every prefix of a run is a run. */
  lemma {:induction false} PrefixValid(s0: State, acts: seq<Action>, k: nat)
    requires ValidRun(s0, acts) && k <= |acts|
    ensures ValidRun(s0, acts[..k])
  {
    if k < |acts| {
      var n := |acts| - 1;
      PrefixValid(s0, acts[..n], k);
      assert acts[..n][..k] == acts[..k];
    } else {
      assert acts[..k] == acts;
    }
  }

  /** The state a run has reached after its first k actions. */
  ghost function At(s0: State, acts: seq<Action>, k: nat): State
    requires ValidRun(s0, acts) && k <= |acts|
  {
    PrefixValid(s0, acts, k);
    Final(s0, acts[..k])
  }

  lemma AtStart(s0: State, acts: seq<Action>)
    requires ValidRun(s0, acts)
    ensures At(s0, acts, 0) == s0
  {
    assert acts[..0] == [];
  }

  lemma AtStep(s0: State, acts: seq<Action>, k: nat)
    requires ValidRun(s0, acts) && k < |acts|
    ensures Enabled(At(s0, acts, k), acts[k])
    ensures At(s0, acts, k + 1) == Apply(At(s0, acts, k), acts[k])
  {
    PrefixValid(s0, acts, k + 1);
    assert acts[..k + 1][..k] == acts[..k];
  }

  /** A run passes where each of its prefixes ends. */
  lemma AtPrefix(s0: State, acts: seq<Action>, prefix: seq<Action>)
    requires ValidRun(s0, acts) && prefix <= acts
    ensures ValidRun(s0, prefix) && At(s0, acts, |prefix|) == Final(s0, prefix)
  {
    PrefixValid(s0, acts, |prefix|);
    assert acts[..|prefix|] == prefix;
  }

  /** Taking one more enabled action extends a run. */
  lemma Extend(s0: State, acts: seq<Action>, a: Action)
    requires ValidRun(s0, acts) && Enabled(Final(s0, acts), a)
    ensures ValidRun(s0, acts + [a]) && Final(s0, acts + [a]) == Apply(Final(s0, acts), a)
  {
  }

  /** The given actions can be taken one after the other from here. */
  predicate Runs(s: State, acts: seq<Action>)
    decreases |acts|
  {
    acts == [] || (Enabled(s, acts[0]) && Runs(Apply(s, acts[0]), acts[1..]))
  }

  function After(s: State, acts: seq<Action>): State
    requires Runs(s, acts)
    decreases |acts|
  {
    if acts == [] then s else After(Apply(s, acts[0]), acts[1..])
  }

  lemma {:induction false} RunsAppend(s: State, a: seq<Action>, b: seq<Action>)
    requires Runs(s, a) && Runs(After(s, a), b)
    ensures Runs(s, a + b) && After(s, a + b) == After(After(s, a), b)
    decreases |a|
  {
    if a == [] {
      assert a + b == b;
    } else {
      assert (a + b)[1..] == a[1..] + b;
      RunsAppend(Apply(s, a[0]), a[1..], b);
    }
  }

  lemma RunsOne(s: State, a: Action)
    requires Enabled(s, a)
    ensures Runs(s, [a]) && After(s, [a]) == Apply(s, a)
  {
  }

  lemma RunsSnoc(s: State, acts: seq<Action>, a: Action)
    requires Runs(s, acts) && Enabled(After(s, acts), a)
    ensures Runs(s, acts + [a]) && After(s, acts + [a]) == Apply(After(s, acts), a)
  {
    RunsOne(After(s, acts), a);
    RunsAppend(s, acts, [a]);
  }

  lemma RunsHead(s: State, acts: seq<Action>)
    requires acts != [] && Runs(s, acts)
    ensures Enabled(s, acts[0]) && Runs(Apply(s, acts[0]), acts[1..])
    ensures After(s, acts) == After(Apply(s, acts[0]), acts[1..])
  {
  }

  /** Actions that can be taken from the end of a run prolong the run. */
  lemma Prolong(s0: State, acts: seq<Action>, more: seq<Action>)
    requires ValidRun(s0, acts) && Runs(Final(s0, acts), more)
    ensures ValidRun(s0, acts + more) && Final(s0, acts + more) == After(Final(s0, acts), more)
  {
    ProlongFrom(s0, acts, Final(s0, acts), more);
  }

  lemma {:induction false} ProlongFrom(s0: State, acts: seq<Action>, s: State, more: seq<Action>)
    requires ValidRun(s0, acts) && Final(s0, acts) == s && Runs(s, more)
    ensures ValidRun(s0, acts + more) && Final(s0, acts + more) == After(s, more)
    decreases |more|
  {
    if more == [] {
      assert acts + more == acts;
    } else {
      var next := ExtendTo(s0, acts, s, more[0]);
      RunsHead(s, more);
      ProlongFrom(s0, next, Apply(s, more[0]), more[1..]);
      assert next + more[1..] == acts + more;
    }
  }

  lemma ExtendTo(s0: State, acts: seq<Action>, s: State, a: Action) returns (next: seq<Action>)
    requires ValidRun(s0, acts) && Final(s0, acts) == s && Enabled(s, a)
    ensures next == acts + [a] && ValidRun(s0, next) && Final(s0, next) == Apply(s, a)
  {
    Extend(s0, acts, a);
    next := acts + [a];
  }

  // ---- What decides a Job, and that it does so once ----

  const COMPLETE := JobCondition(JobComplete, true)
  const FAILED := JobCondition(JobFailed, true)

  /** No condition before index i is a True Complete or a True Failed. */
  predicate UndecidedBefore(job: Job, i: nat)
    requires i <= |job|
  {
    forall j | 0 <= j < i :: job[j] != JobCondition(JobComplete, true) && job[j] != JobCondition(JobFailed, true)
  }

  /** The first True Complete or True Failed decides; conditions of other types or not True never matter. */
  lemma {:induction false} VerdictExact(job: Job)
    ensures VerdictOf(job) == Succeeded <==>
              exists i :: 0 <= i < |job| && job[i] == JobCondition(JobComplete, true) && UndecidedBefore(job, i)
    ensures VerdictOf(job) == Broken <==>
              exists i :: 0 <= i < |job| && job[i] == JobCondition(JobFailed, true) && UndecidedBefore(job, i)
    ensures VerdictOf(job) == Open <==> UndecidedBefore(job, |job|)
  {
    if job != [] {
      VerdictExact(job[1..]);
      if job[0] != COMPLETE && job[0] != FAILED {
        VerdictTail(job, COMPLETE);
        VerdictTail(job, FAILED);
      } else {
        assert UndecidedBefore(job, 0);
      }
    }
  }

  /** A condition that decides nothing can be dropped from the front. */
  lemma VerdictTail(job: Job, c: JobCondition)
    requires job != [] && job[0] != COMPLETE && job[0] != FAILED && (c == COMPLETE || c == FAILED)
    ensures (exists i :: 0 <= i < |job| && job[i] == c && UndecidedBefore(job, i)) <==>
            (exists i :: 0 <= i < |job[1..]| && job[1..][i] == c && UndecidedBefore(job[1..], i))
    ensures UndecidedBefore(job, |job|) <==> UndecidedBefore(job[1..], |job| - 1)
  {
    var tail := job[1..];
    forall i | 0 <= i < |tail|
      ensures UndecidedBefore(tail, i) <==> UndecidedBefore(job, i + 1)
    {
      assert forall j | 0 <= j < i :: tail[j] == job[j + 1];
    }
    if exists i :: 0 <= i < |job| && job[i] == c && UndecidedBefore(job, i) {
      var i :| 0 <= i < |job| && job[i] == c && UndecidedBefore(job, i);
      assert tail[i - 1] == c && UndecidedBefore(tail, i - 1);
    }
    if exists i :: 0 <= i < |tail| && tail[i] == c && UndecidedBefore(tail, i) {
      var i :| 0 <= i < |tail| && tail[i] == c && UndecidedBefore(tail, i);
      assert job[i + 1] == c && UndecidedBefore(job, i + 1);
    }
    assert forall j | 0 <= j < |tail| :: tail[j] == job[j + 1];
  }

  lemma {:induction false} VerdictAppend(job: Job, c: JobCondition)
    ensures VerdictOf(job) != Open ==> VerdictOf(job + [c]) == VerdictOf(job)
    ensures VerdictOf(job) == Open ==> VerdictOf(job + [c]) == VerdictOf([c])
  {
    if job == [] {
      assert job + [c] == [c];
    } else {
      VerdictAppend(job[1..], c);
      assert (job + [c])[1..] == job[1..] + [c];
    }
  }
}

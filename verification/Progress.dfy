/**
 Progress of the restore: in rounds in which the replica controller reconciles, one surplus pod
 drains, active Jobs finish and the restore controller reconciles undisturbed, a terminal phase
 is reached within the initial pod count plus a constant number of rounds.
 */
module Progress {
  import opened Wrappers
  import opened LitestreamConfig
  import opened Cluster
  import opened Invariant
  import opened RestorePlan

  /** What one round leaves open: how the Jobs end, whether the replica reconcile gets to the
      health check and to the removal of skip-archive-check that may follow, and the clock. */
  datatype Input = Input(restoreOk: bool, validateOk: bool, checksHealth: bool, now: nat)

  // ---- The stages of a round ----

  /** A replica reconcile in flight finishes its ConfigMap write. */
  function FinishActs(s: State): seq<Action> {
    If(s.pass.Some? && !s.pass.value.wrote, ReplicaWrite) + If(s.pass.Some?, ReplicaEnd)
  }

  /** The next replica reconcile removes skip-archive-check. */
  predicate Clears(s: State, o: Input)
    requires s.source.Some?
  {
    && o.checksHealth && s.source.value.skip && s.source.value.spec.backupEnabled
    && Annotates(s) && Healthy(s.workload.value.pods)
  }

  /** It finds a target with at most one wanted pod. */
  predicate Annotates(s: State) { s.workload.Some? && s.workload.value.Desired() <= 1 }

  function PassActs(s: State, o: Input): seq<Action>
    requires s.source.Some?
  {
    TemplateActs(s) + (if Clears(s, o) then [ReplicaObserve, ReplicaClear] else [ReplicaEnd])
  }

  /** A replica reconcile up to the pod template. */
  function TemplateActs(s: State): seq<Action> {
    [ReplicaRead, ReplicaWrite] + If(Annotates(s), ReplicaAnnotate)
  }

  /** The workload, up to the annotation of its pod template. */
  predicate SameWorkload(w: Option<Workload>, v: Option<Workload>) {
    && (w.None? <==> v.None?)
    && (w.Some? ==> v.value.replicas == w.value.replicas && v.value.pods == w.value.pods)
  }

  function ReplicaActs(s: State, o: Input): seq<Action> {
    FinishActs(s) + (if s.source.Some? then PassActs(s, o) else [])
  }

  /** The ConfigMap that the source calls for. */
  function Wanted(src: Source): Option<Config> {
    Some(if src.pause then Paused else Full(src.spec))
  }

  function DrainActs(s: State): seq<Action> {
    If(s.workload.Some? && s.workload.value.Desired() < |s.workload.value.pods|, PodDown(0))
  }

  function Report(ok: bool): JobCondition {
    JobCondition(if ok then JobComplete else JobFailed, true)
  }

  function JobActs(s: State, o: Input): seq<Action> {
    If(Active(s.restoreJob), RestoreJobReport(Report(o.restoreOk))) +
    If(Active(s.validateJob), ValidateJobReport(Report(o.validateOk)))
  }

  // ---- Each stage can be taken, and what it does ----

  lemma FinishStage(n0: nat, s: State)
    requires Inv(n0, s)
    ensures Runs(s, FinishActs(s))
    ensures var t := After(s, FinishActs(s)); Inv(n0, t) && t == s.(config := t.config, pass := None, torn := t.torn)
  {
    var acts, t := [], s;
    if s.pass.Some? && !s.pass.value.wrote {
      acts, t := Go(s, acts, t, ReplicaWrite);
    }
    if s.pass.Some? {
      acts, t := Go(s, acts, t, ReplicaEnd);
    }
    RunsInv(n0, s, acts);
    assert acts == FinishActs(s);
  }

  lemma TemplateStage(s: State)
    requires s.pass.None? && s.source.Some?
    ensures Runs(s, TemplateActs(s))
    ensures var t := After(s, TemplateActs(s));
            && t == s.(config := Wanted(s.source.value), workload := t.workload, pass := t.pass)
            && SameWorkload(s.workload, t.workload)
            && (s.workload.Some? ==> t.workload.value.annotated == (s.workload.value.annotated || Annotates(s)))
            && t.pass == Some(Pass(s.source.value.spec, s.source.value.pause, s.source.value.skip, true, false))
  {
    var acts, t := [], s;
    acts, t := Go(s, acts, t, ReplicaRead);
    acts, t := Go(s, acts, t, ReplicaWrite);
    if Annotates(s) {
      acts, t := Go(s, acts, t, ReplicaAnnotate);
    }
    assert acts == TemplateActs(s);
  }

  lemma ClearStage(s: State)
    requires Enabled(s, ReplicaObserve) && s.source.Some? && !(s.status.phase.ScalingUp? && Idle(s))
    ensures Runs(s, [ReplicaObserve, ReplicaClear])
    ensures After(s, [ReplicaObserve, ReplicaClear]) ==
            s.(source := Some(s.source.value.(skip := false)), pass := None)
  {
    var acts, t := Go(s, [], s, ReplicaObserve);
    acts, t := Go(s, acts, t, ReplicaClear);
    assert acts == [ReplicaObserve, ReplicaClear];
  }

  lemma PassStage(n0: nat, s: State, o: Input)
    requires Inv(n0, s) && s.pass.None? && s.source.Some?
    ensures Runs(s, PassActs(s, o))
    ensures var t := After(s, PassActs(s, o));
            && t.source == Some(s.source.value.(skip := s.source.value.skip && !Clears(s, o)))
            && SameWorkload(s.workload, t.workload)
            && (s.workload.Some? ==> t.workload.value.annotated == (s.workload.value.annotated || Annotates(s)))
            && t == s.(config := Wanted(s.source.value), source := t.source, workload := t.workload)
  {
    TemplateStage(s);
    var acts := TemplateActs(s);
    var t := After(s, acts);
    if Clears(s, o) {
      ClearStage(t);
      RunsAppend(s, acts, [ReplicaObserve, ReplicaClear]);
    } else {
      RunsSnoc(s, acts, ReplicaEnd);
    }
  }

  /** The same source, up to skip-archive-check. */
  predicate Alike(a: Option<Source>, b: Option<Source>) {
    (b.None? <==> a.None?) && (a.Some? ==> b.value.spec == a.value.spec && b.value.pause == a.value.pause)
  }

  lemma ReplicaStage(n0: nat, s: State, o: Input)
    requires Inv(n0, s)
    ensures Runs(s, ReplicaActs(s, o))
    ensures var t := After(s, ReplicaActs(s, o));
            && Inv(n0, t) && Alike(s.source, t.source) && SameWorkload(s.workload, t.workload)
            && t == s.(config := t.config, source := t.source, workload := t.workload, pass := None, torn := t.torn)
            && (s.source.Some? ==> t.config == Wanted(s.source.value))
  {
    FinishStage(n0, s);
    if s.source.Some? {
      PassStage(n0, After(s, FinishActs(s)), o);
      RunsAppend(s, FinishActs(s), PassActs(s, o));
    } else {
      assert ReplicaActs(s, o) == FinishActs(s);
    }
    RunsInv(n0, s, ReplicaActs(s, o));
  }

  /** One more action at the end of a list that can be taken from `s`. */
  lemma Go(s: State, acts: seq<Action>, t: State, a: Action) returns (more: seq<Action>, u: State)
    requires Runs(s, acts) && After(s, acts) == t && Enabled(t, a)
    ensures more == acts + [a] && Runs(s, more) && After(s, more) == u == Apply(t, a)
  {
    RunsSnoc(s, acts, a);
    more, u := acts + [a], Apply(t, a);
  }

  lemma {:induction false} RunsInv(n0: nat, s: State, acts: seq<Action>)
    requires Inv(n0, s) && Runs(s, acts)
    ensures Inv(n0, After(s, acts))
    decreases |acts|
  {
    if acts != [] {
      InvKept(n0, s, acts[0]);
      RunsInv(n0, Apply(s, acts[0]), acts[1..]);
    }
  }

  lemma DrainStage(n0: nat, s: State)
    requires Inv(n0, s)
    ensures Runs(s, DrainActs(s))
    ensures var t := After(s, DrainActs(s));
            && Inv(n0, t)
            && t == s.(workload := t.workload)
            && (t.workload.Some? <==> s.workload.Some?)
            && (s.workload.Some? ==>
                  && t.workload.value.replicas == s.workload.value.replicas
                  && |t.workload.value.pods| == |s.workload.value.pods| - |DrainActs(s)|)
  {
    if DrainActs(s) != [] {
      RunsOne(s, PodDown(0));
      InvKept(n0, s, PodDown(0));
    }
  }

  lemma JobStage(n0: nat, s: State, o: Input)
    requires Inv(n0, s)
    ensures Runs(s, JobActs(s, o))
    ensures var t := After(s, JobActs(s, o));
            && Inv(n0, t)
            && t == s.(restoreJob := t.restoreJob, validateJob := t.validateJob)
            && !Active(t.restoreJob) && !Active(t.validateJob)
            && (t.restoreJob.Some? <==> s.restoreJob.Some?)
            && (t.validateJob.Some? <==> s.validateJob.Some?)
            && (o.restoreOk && Done(t.restoreJob, Broken) ==> Done(s.restoreJob, Broken))
            && (o.validateOk && Done(t.validateJob, Broken) ==> Done(s.validateJob, Broken))
  {
    var acts, t := [], s;
    if Active(s.restoreJob) {
      VerdictAppend(s.restoreJob.value, Report(o.restoreOk));
      acts, t := Go(s, acts, t, RestoreJobReport(Report(o.restoreOk)));
    }
    if Active(s.validateJob) {
      VerdictAppend(s.validateJob.value, Report(o.validateOk));
      acts, t := Go(s, acts, t, ValidateJobReport(Report(o.validateOk)));
    }
    RunsInv(n0, s, acts);
    assert acts == JobActs(s, o);
  }

  // ---- The restore controller's turn ----

  function Pods(s: State): nat {
    if s.workload.Some? then |s.workload.value.pods| else 0
  }

  /** Rounds left at most. */
  function Left(s: State): nat {
    match s.status.phase
    case Unset => 8 + Pods(s)
    case Pending => 8 + Pods(s)
    case Pausing => 7 + Pods(s)
    case ScalingDown => 6 + Pods(s)
    case Running => 5
    case Validating => if s.validateJob.None? then 4 else 3
    case ScalingUp => if s.source.Some? && s.source.value.pause then 2 else 1
    case Complete => 0
    case Failed => 0
  }

  /** The replica controller has caught up and no Job is active. */
  predicate Prepared(s: State) {
    && (s.source.Some? ==> s.config == Wanted(s.source.value))
    && !Active(s.restoreJob) && !Active(s.validateJob)
  }

  /** The source keeps its spec, and a terminal phase is entered only with the count restored. */
  predicate Kept(n0: nat, s: State, t: State) {
    && t.source.Some? && s.source.Some? && t.source.value.spec == s.source.value.spec
    && (Terminal(t.status.phase) && t.workload.Some? ==> t.workload.value.Desired() == n0)
  }

  /** Fewer rounds are left, or pods are still draining, or the name of the Job's ConfigMap is taken. */
  predicate Closer(s: State, t: State) {
    Left(t) < Left(s) || (t == s && s.status.phase.ScalingDown? && (Pods(s) > 0 || (s.taken && Usable(s))))
  }

  /** All pods are gone, and the ConfigMap of the restore Job cannot be written. */
  predicate Hung(s: State) {
    s.status.phase.ScalingDown? && Pods(s) == 0 && s.taken && Usable(s)
  }

  predicate Advances(n0: nat, s: State, t: State) { Closer(s, t) && Kept(n0, s, t) }

  lemma PauseStage(s: State)
    requires s.source.Some? && Early(s.status.phase)
    ensures Runs(s, If(!s.source.value.pause, RPause))
    ensures After(s, If(!s.source.value.pause, RPause)) ==
            s.(source := Some(s.source.value.(pause := true)), torn := s.torn && s.source.value.pause)
  {
    if !s.source.value.pause {
      RunsOne(s, RPause);
    }
  }

  lemma PendingStage(n0: nat, s: State, now: nat)
    requires Inv(n0, s) && Early(s.status.phase) && s.source.Some?
    ensures Runs(s, PlanPending(s, now))
    ensures var t := After(s, PlanPending(s, now));
            && t.status.phase.Pausing? && Advances(n0, s, t)
            && t.restoreJob == s.restoreJob && t.validateJob == s.validateJob
  {
    PauseStage(s);
    var acts := If(!s.source.value.pause, RPause);
    var n := if s.workload.Some? then s.workload.value.Desired() else 0;
    RunsSnoc(s, acts, RToPausing(n, now));
  }

  lemma PausingStage(n0: nat, s: State)
    requires Inv(n0, s) && s.status.phase.Pausing? && s.source.Some? && Prepared(s)
    ensures Runs(s, PlanPausing(s))
    ensures var t := After(s, PlanPausing(s));
            && t.status.phase.ScalingDown? && t.source == s.source && Advances(n0, s, t)
            && t.restoreJob == s.restoreJob && t.validateJob == s.validateJob
  {
    var acts, t := [], s;
    if s.workload.Some? && s.workload.value.replicas != Some(0) {
      acts, t := Go(s, acts, t, RScaleDown);
    }
    acts, t := Go(s, acts, t, RToScalingDown);
    assert acts == PlanPausing(s);
  }

  lemma ScalingDownStage(n0: nat, s: State, now: nat)
    requires Inv(n0, s) && s.status.phase.ScalingDown? && Usable(s)
    ensures Runs(s, PlanScalingDown(s, now))
    ensures var t := After(s, PlanScalingDown(s, now));
            && t.source == s.source && Advances(n0, s, t)
            && (if Pods(s) > 0 || s.taken then t == s else t.status.phase.Running? && t.restoreJob.Some?)
            && (s.restoreJob.Some? ==> t.restoreJob == s.restoreJob)
            && (s.restoreJob.None? && t.restoreJob.Some? ==> t.restoreJob == Some([]))
  {
    if Pods(s) == 0 && !s.taken {
      var a := RRestoreConfig(s.source.value.spec);
      RunsOne(s, a);
      LaunchStage(Apply(s, a), now);
      RunsAppend(s, [a], If(s.restoreJob.None?, RCreateRestoreJob) + [RToRunning(now)]);
    }
  }

  lemma LaunchStage(s: State, now: nat)
    requires s.status.phase.ScalingDown? && Down(s) && s.restoreConfig.Some?
    ensures var acts := If(s.restoreJob.None?, RCreateRestoreJob) + [RToRunning(now)];
            && Runs(s, acts) && After(s, acts).status.phase.Running? && After(s, acts).source == s.source
            && After(s, acts).restoreJob == if s.restoreJob.None? then Some([]) else s.restoreJob
  {
    var acts, t := [], s;
    if s.restoreJob.None? {
      acts, t := Go(s, acts, t, RCreateRestoreJob);
    }
    acts, t := Go(s, acts, t, RToRunning(now));
    assert acts == If(s.restoreJob.None?, RCreateRestoreJob) + [RToRunning(now)];
  }

  lemma CleanupScaleStage(n0: nat, s: State)
    requires Inv(n0, s) && Abandoned(s)
    ensures Runs(s, PlanCleanupScale(s))
    ensures var t := After(s, PlanCleanupScale(s));
            && Inv(n0, t) && Abandoned(t) && t == s.(workload := t.workload)
            && (t.workload.Some? <==> s.workload.Some?)
            && (t.workload.Some? ==> t.workload.value.Desired() == n0)
  {
    if PlanCleanupScale(s) != [] {
      var a := RCleanupScaleUp(TargetCount(s.status));
      RunsOne(s, a);
      InvKept(n0, s, a);
    }
  }

  /** The end of a clean-up, with the workload put back. */
  lemma ResumeFailStage(n0: nat, s: State, now: nat)
    requires Inv(n0, s) && Abandoned(s) && s.source.Some?
    requires s.workload.Some? ==> s.workload.value.Desired() == n0
    ensures var acts := If(s.source.value.pause, RResume) + [RFailCleanup(true, now)];
            && Runs(s, acts) && After(s, acts).status.phase.Failed? && Kept(n0, s, After(s, acts))
            && After(s, acts).restoreJob == s.restoreJob && After(s, acts).validateJob == s.validateJob
            && After(s, acts).workload == s.workload
  {
    var acts, t := [], s;
    if s.source.value.pause {
      acts, t := Go(s, acts, t, RResume);
    }
    acts, t := Go(s, acts, t, RFailCleanup(true, now));
    assert acts == If(s.source.value.pause, RResume) + [RFailCleanup(true, now)];
  }

  lemma CleanupStage(n0: nat, s: State, now: nat)
    requires Inv(n0, s) && Abandoned(s) && s.source.Some?
    ensures Runs(s, PlanCleanup(s, now))
    ensures var t := After(s, PlanCleanup(s, now));
            && t.status.phase.Failed? && Kept(n0, s, t)
            && t.restoreJob == s.restoreJob && t.validateJob == s.validateJob
            && (t.workload.Some? <==> s.workload.Some?)
  {
    CleanupScaleStage(n0, s);
    ResumeFailStage(n0, After(s, PlanCleanupScale(s)), now);
    RunsAppend(s, PlanCleanupScale(s), If(s.source.value.pause, RResume) + [RFailCleanup(true, now)]);
  }

  lemma RunningStage(n0: nat, s: State, now: nat)
    requires Inv(n0, s) && s.status.phase.Running? && s.source.Some? && Prepared(s)
    ensures Runs(s, PlanRunning(s, now))
    ensures var t := After(s, PlanRunning(s, now));
            && Advances(n0, s, t)
            && (s.restoreJob.Some? && !Done(s.restoreJob, Broken) ==>
                  t == s.(status := t.status) && t.status.phase.Validating?)
  {
    if Abandoned(s) {
      CleanupStage(n0, s, now);
    } else {
      RunsOne(s, RToValidating);
    }
  }

  lemma ValidatingStage(n0: nat, s: State, now: nat)
    requires Inv(n0, s) && s.status.phase.Validating? && s.source.Some? && Prepared(s)
    ensures Runs(s, PlanValidating(s, now))
    ensures var t := After(s, PlanValidating(s, now));
            && Advances(n0, s, t)
            && (!Done(s.validateJob, Broken) ==>
                  && t == s.(status := t.status, validateJob := t.validateJob)
                  && t.status.phase in {Validating, ScalingUp} && !Done(t.validateJob, Broken))
  {
    if s.validateJob.None? {
      RunsOne(s, RCreateValidateJob);
    } else if Abandoned(s) {
      CleanupStage(n0, s, now);
    } else {
      RunsOne(s, RToScalingUp);
    }
  }

  lemma GateStage(n0: nat, s: State)
    requires Inv(n0, s) && s.status.phase.ScalingUp? && s.source.Some?
    ensures Runs(s, PlanGate(s.source.value))
    ensures var t := After(s, PlanGate(s.source.value));
            Inv(n0, t) && t == s.(source := Some(s.source.value.(skip := true, pause := false)), torn := t.torn)
  {
    var acts, t := [], s;
    if !s.source.value.skip {
      acts, t := Go(s, acts, t, RSetSkip);
    }
    if s.source.value.pause {
      acts, t := Go(s, acts, t, RResume);
    }
    RunsInv(n0, s, acts);
    assert acts == PlanGate(s.source.value);
  }

  lemma FinishScalingUp(n0: nat, s: State, now: nat)
    requires Inv(n0, s) && GatePassed(s)
    ensures Runs(s, PlanScaleUp(s) + [RComplete(false, now)])
    ensures var t := After(s, PlanScaleUp(s) + [RComplete(false, now)]);
            && t.status.phase.Complete? && t.source == s.source
            && (t.workload.Some? ==> t.workload.value.Desired() == n0)
  {
    var acts, t := [], s;
    if PlanScaleUp(s) != [] {
      acts, t := Go(s, acts, t, RScaleUp(TargetCount(s.status)));
    }
    acts, t := Go(s, acts, t, RComplete(false, now));
    assert acts == PlanScaleUp(s) + [RComplete(false, now)];
  }

  lemma ScalingUpStage(n0: nat, s: State, now: nat)
    requires Inv(n0, s) && s.status.phase.ScalingUp? && s.source.Some? && Prepared(s)
    ensures Runs(s, PlanScalingUp(s, now))
    ensures var t := After(s, PlanScalingUp(s, now));
            && Advances(n0, s, t)
            && t.status.phase in {ScalingUp, Complete}
  {
    GateStage(n0, s);
    var g := PlanGate(s.source.value);
    if s.source.value.pause {
      assert PlanScalingUp(s, now) == g;
    } else {
      var t := After(s, g);
      FinishScalingUp(n0, t, now);
      RunsAppend(s, g, PlanScaleUp(s) + [RComplete(false, now)]);
    }
  }

  lemma PlanUsable(n0: nat, s: State, now: nat)
    requires Inv(n0, s) && Prepared(s) && Usable(s) && !Terminal(s.status.phase)
    ensures Runs(s, Plan(s, now)) && Advances(n0, s, After(s, Plan(s, now)))
  {
    match s.status.phase
    case Unset => PendingStage(n0, s, now);
    case Pending => PendingStage(n0, s, now);
    case Pausing => PausingStage(n0, s);
    case ScalingDown => ScalingDownStage(n0, s, now);
    case Running => RunningStage(n0, s, now);
    case Validating => ValidatingStage(n0, s, now);
    case ScalingUp => ScalingUpStage(n0, s, now);
  }

  lemma PlanUnusable(s: State, now: nat)
    requires !Usable(s) && !Terminal(s.status.phase)
    ensures Runs(s, Plan(s, now)) && Closer(s, After(s, Plan(s, now))) && After(s, Plan(s, now)).source == s.source
  {
    RunsOne(s, RFail(now));
    assert Plan(s, now) == [RFail(now)];
  }

  /** From a prepared state every planned write is possible, and the restore gets closer to its end. */
  lemma PlanStage(n0: nat, s: State, now: nat)
    requires Inv(n0, s) && Prepared(s)
    ensures Runs(s, Plan(s, now)) && Inv(n0, After(s, Plan(s, now)))
    ensures if Terminal(s.status.phase) then After(s, Plan(s, now)) == s else Closer(s, After(s, Plan(s, now)))
  {
    if !Terminal(s.status.phase) {
      if Usable(s) {
        PlanUsable(n0, s, now);
      } else {
        PlanUnusable(s, now);
      }
    }
    RunsInv(n0, s, Plan(s, now));
  }

  // ---- Rounds ----

  /** Everybody but the restore controller has had its turn. */
  ghost function Prepare(n0: nat, s: State, o: Input): (t: State)
    requires Inv(n0, s)
    ensures Inv(n0, t) && Prepared(t)
    ensures t.status == s.status && Alike(s.source, t.source) && t.taken == s.taken
    ensures t.restoreJob.Some? <==> s.restoreJob.Some?
    ensures t.validateJob.Some? <==> s.validateJob.Some?
    ensures o.restoreOk && Done(t.restoreJob, Broken) ==> Done(s.restoreJob, Broken)
    ensures o.validateOk && Done(t.validateJob, Broken) ==> Done(s.validateJob, Broken)
    ensures t.workload.Some? ==> s.workload.Some? && t.workload.value.replicas == s.workload.value.replicas
    ensures Pods(t) <= Pods(s)
    ensures s.status.phase.ScalingDown? && Pods(s) > 0 ==> Pods(t) < Pods(s)
  {
    ReplicaStage(n0, s, o);
    var s1 := After(s, ReplicaActs(s, o));
    DrainStage(n0, s1);
    var s2 := After(s1, DrainActs(s1));
    JobStage(n0, s2, o);
    After(s2, JobActs(s2, o))
  }

  ghost function Round(n0: nat, s: State, o: Input): (t: State)
    requires Inv(n0, s)
    ensures Inv(n0, t) && t.taken == s.taken
  {
    var p := Prepare(n0, s, o);
    PlanStage(n0, p, o.now);
    RunsKeepName(p, Plan(p, o.now));
    After(p, Plan(p, o.now))
  }

  lemma {:induction false} RunsKeepName(s: State, acts: seq<Action>)
    requires Runs(s, acts)
    ensures After(s, acts).taken == s.taken
    decreases |acts|
  {
    if acts != [] {
      if IsRestore(acts[0]) {
        NameByRestore(s, acts[0]);
      } else {
        NameByOthers(s, acts[0]);
      }
      RunsKeepName(Apply(s, acts[0]), acts[1..]);
    }
  }

  ghost function Rounds(n0: nat, s: State, os: seq<Input>): (t: State)
    requires Inv(n0, s)
    ensures Inv(n0, t) && t.taken == s.taken
    decreases |os|
  {
    if os == [] then s else Rounds(n0, Round(n0, s, os[0]), os[1..])
  }

  /** Every round brings the restore strictly closer to a terminal phase, unless it hangs, and then it still does. */
  lemma RoundDecreases(n0: nat, s: State, o: Input)
    requires Inv(n0, s) && !Terminal(s.status.phase)
    ensures if Hung(s) then Hung(Round(n0, s, o)) else Left(Round(n0, s, o)) < Left(s)
  {
    PlanStage(n0, Prepare(n0, s, o), o.now);
  }

  lemma TerminalStays(n0: nat, s: State, o: Input)
    requires Inv(n0, s) && Terminal(s.status.phase)
    ensures Round(n0, s, o).status == s.status
  {
  }

  /** Whatever the Jobs decide, within `Left` rounds the restore has ended or hangs. */
  lemma {:induction false} Terminates(n0: nat, s: State, os: seq<Input>)
    requires Inv(n0, s) && (|os| >= Left(s) || Hung(s))
    ensures Terminal(Rounds(n0, s, os).status.phase) || Hung(Rounds(n0, s, os))
    decreases |os|
  {
    if os != [] {
      if Terminal(s.status.phase) {
        TerminalStays(n0, s, os[0]);
      } else {
        RoundDecreases(n0, s, os[0]);
      }
      Terminates(n0, Round(n0, s, os[0]), os[1..]);
    }
  }

  /** A usable restore whose ConfigMap name is taken stays before Running. */
  predicate Stuck(s: State) {
    s.taken && Usable(s) && (Early(s.status.phase) || s.status.phase in {Pausing, ScalingDown})
  }

  lemma StuckPlan(n0: nat, s: State, now: nat)
    requires Inv(n0, s) && Prepared(s) && Stuck(s)
    ensures Runs(s, Plan(s, now)) && Stuck(After(s, Plan(s, now)))
  {
    PlanUsable(n0, s, now);
    RunsKeepName(s, Plan(s, now));
    match s.status.phase
    case Unset => PendingStage(n0, s, now);
    case Pending => PendingStage(n0, s, now);
    case Pausing => PausingStage(n0, s);
    case ScalingDown => ScalingDownStage(n0, s, now);
  }

  lemma {:induction false} StuckRounds(n0: nat, s: State, os: seq<Input>)
    requires Inv(n0, s) && Stuck(s)
    ensures Stuck(Rounds(n0, s, os))
    decreases |os|
  {
    if os != [] {
      StuckPlan(n0, Prepare(n0, s, os[0]), os[0].now);
      StuckRounds(n0, Round(n0, s, os[0]), os[1..]);
    }
  }

  /** Whether the rounds have brought a usable source, or another, does not change. */
  lemma {:induction false} UsableRounds(n0: nat, s: State, os: seq<Input>)
    requires Inv(n0, s) && !Usable(s)
    ensures !Usable(Rounds(n0, s, os))
    decreases |os|
  {
    if os != [] {
      var p := Prepare(n0, s, os[0]);
      if !Terminal(p.status.phase) {
        PlanUnusable(p, os[0].now);
      }
      UsableRounds(n0, Round(n0, s, os[0]), os[1..]);
    }
  }

  /**
   A fresh restore ends within the workload's pod count plus eight rounds, exactly unless the name
   of its Job's ConfigMap belongs to another controller. Then it hangs in ScalingDown, with the
   workload at zero and replication paused, however many rounds follow.
   */
  lemma FreshTerminates(s0: State, os: seq<Input>)
    requires Fresh(s0) && |os| >= 8 + Pods(s0)
    ensures Inv(Born(s0), s0)
    ensures Terminal(Rounds(Born(s0), s0, os).status.phase) <==> !(Usable(s0) && s0.taken)
    ensures var t := Rounds(Born(s0), s0, os);
            Usable(s0) && s0.taken ==> Hung(t) && t.source.value.pause && Down(t)
  {
    FreshInv(s0);
    Terminates(Born(s0), s0, os);
    if !Usable(s0) {
      UsableRounds(Born(s0), s0, os);
    } else if s0.taken {
      StuckRounds(Born(s0), s0, os);
    }
  }

  /** A round is a stretch of a run: rounds reach nothing that the protocol does not. */
  lemma RoundIsRun(s0: State, acts: seq<Action>, o: Input) returns (more: seq<Action>)
    requires Fresh(s0) && ValidRun(s0, acts)
    ensures Inv(Born(s0), Final(s0, acts))
    ensures ValidRun(s0, acts + more) && Final(s0, acts + more) == Round(Born(s0), Final(s0, acts), o)
  {
    InvFinal(s0, acts);
    var n0, s := Born(s0), Final(s0, acts);
    ReplicaStage(n0, s, o);
    var r := ReplicaActs(s, o);
    var s1 := After(s, r);
    DrainStage(n0, s1);
    RunsAppend(s, r, DrainActs(s1));
    var s2 := After(s1, DrainActs(s1));
    JobStage(n0, s2, o);
    RunsAppend(s, r + DrainActs(s1), JobActs(s2, o));
    var p := Prepare(n0, s, o);
    PlanStage(n0, p, o.now);
    RunsAppend(s, r + DrainActs(s1) + JobActs(s2, o), Plan(p, o.now));
    more := r + DrainActs(s1) + JobActs(s2, o) + Plan(p, o.now);
    Prolong(s0, acts, more);
  }

  // ---- With a usable source the workload always gets its replicas back ----

  predicate CountSafe(n0: nat, s: State) {
    Usable(s) && (Terminal(s.status.phase) && s.workload.Some? ==> s.workload.value.Desired() == n0)
  }

  lemma {:induction false} CountSafeRounds(n0: nat, s: State, os: seq<Input>)
    requires Inv(n0, s) && CountSafe(n0, s)
    ensures CountSafe(n0, Rounds(n0, s, os))
    decreases |os|
  {
    if os != [] {
      if !Terminal(s.status.phase) {
        PlanUsable(n0, Prepare(n0, s, os[0]), os[0].now);
      }
      CountSafeRounds(n0, Round(n0, s, os[0]), os[1..]);
    }
  }

  /**
   From a fresh restore with a usable source and its name free, whatever the Jobs decide: within
   the pod count plus eight rounds the restore has ended and a workload that exists wants its
   original replica count.
   */
  lemma EndsWithCount(s0: State, os: seq<Input>)
    requires Fresh(s0) && Usable(s0) && !s0.taken && |os| >= 8 + Pods(s0)
    ensures Inv(Born(s0), s0)
    ensures var t := Rounds(Born(s0), s0, os);
            Terminal(t.status.phase) && (t.workload.Some? ==> t.workload.value.Desired() == Born(s0))
  {
    FreshTerminates(s0, os);
    CountSafeRounds(Born(s0), s0, os);
  }

  // ---- The good case ends well ----

  /** Nothing has gone wrong so far. */
  predicate Fine(s: State) {
    && Usable(s) && !s.status.phase.Failed?
    && !Done(s.restoreJob, Broken) && !Done(s.validateJob, Broken)
    && (s.status.phase.Running? ==> s.restoreJob.Some?)
  }

  lemma FinePlan(n0: nat, s: State, now: nat)
    requires Inv(n0, s) && Prepared(s) && Fine(s)
    ensures Runs(s, Plan(s, now)) && Fine(After(s, Plan(s, now)))
  {
    PlanStage(n0, s, now);
    match s.status.phase
    case Unset => PendingStage(n0, s, now);
    case Pending => PendingStage(n0, s, now);
    case Pausing => PausingStage(n0, s);
    case ScalingDown => ScalingDownStage(n0, s, now);
    case Running => RunningStage(n0, s, now);
    case Validating => ValidatingStage(n0, s, now);
    case ScalingUp => ScalingUpStage(n0, s, now);
    case _ =>
  }

  lemma {:induction false} FineRounds(n0: nat, s: State, os: seq<Input>)
    requires Inv(n0, s) && Fine(s)
    requires forall o | o in os :: o.restoreOk && o.validateOk
    ensures Fine(Rounds(n0, s, os))
    decreases |os|
  {
    if os != [] {
      assert os[0] in os;
      FinePlan(n0, Prepare(n0, s, os[0]), os[0].now);
      FineRounds(n0, Round(n0, s, os[0]), os[1..]);
    }
  }

  /**
   With both Jobs succeeding that end is Complete.
   */
  lemma Completes(s0: State, os: seq<Input>)
    requires Fresh(s0) && Usable(s0) && !s0.taken && |os| >= 8 + Pods(s0)
    requires forall o | o in os :: o.restoreOk && o.validateOk
    ensures Inv(Born(s0), s0)
    ensures Rounds(Born(s0), s0, os).status.phase.Complete?
  {
    FreshTerminates(s0, os);
    FineRounds(Born(s0), s0, os);
  }
}

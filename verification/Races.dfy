/**
 Exactly when the pause window and the scale-up gate hold. Each is proved in RunTheorems from a
 condition on the start; here a run that breaks it is built from every start that fails the
 condition, so the condition, which can be looked up before a restore is created, is exact.
 */
module Races {
  import opened Wrappers
  import opened LitestreamConfig
  import opened Cluster
  import opened Invariant
  import opened RunTheorems
  import opened RestorePlan
  import opened Progress

  const DONE := JobCondition(JobComplete, true)
  const BROKEN := JobCondition(JobFailed, true)

  // ---- Stretches of a restore, each from any state in which it can happen ----

  /** The status from Pausing on, of a restore that recorded the count `n`. */
  function Underway(phase: Phase, jobName: string, n: nat): Status {
    Status(phase, jobName, Some(n), Some(0), None)
  }

  function Emptied(w: Option<Workload>): Option<Workload> {
    if w.None? then None else Some(w.value.(pods := []))
  }

  function Zeroed(w: Option<Workload>): Option<Workload> {
    if w.None? then None else Some(w.value.(replicas := Some(0)))
  }

  /** Created to Pausing. */
  lemma Start(s: State) returns (acts: seq<Action>, t: State)
    requires Early(s.status.phase) && s.status == Status(s.status.phase, "", None, None, None) && s.source.Some?
    ensures Runs(s, acts) && After(s, acts) == t
    ensures t == s.(status := Underway(Pausing, "", Born(s)), source := Some(s.source.value.(pause := true)),
                    torn := s.torn && s.source.value.pause)
    ensures acts == PlanPending(s, 0)
  {
    PauseStage(s);
    acts := If(!s.source.value.pause, RPause);
    acts, t := Go(s, acts, After(s, acts), RToPausing(Born(s), 0));
  }

  /** A replica reconcile up to its ConfigMap write, in place of one that may be in flight. */
  lemma Catch(s: State) returns (acts: seq<Action>, t: State)
    requires s.source.Some?
    ensures Runs(s, acts) && After(s, acts) == t
    ensures var src := s.source.value;
            t == s.(config := Wanted(src), pass := Some(Pass(src.spec, src.pause, src.skip, true, false)))
  {
    acts, t := Look(s);
    acts, t := Go(s, acts, t, ReplicaWrite);
  }

  /** A replica reconcile up to its read. */
  lemma Look(s: State) returns (acts: seq<Action>, t: State)
    requires s.source.Some?
    ensures Runs(s, acts) && After(s, acts) == t
    ensures var src := s.source.value;
            t == s.(pass := Some(Pass(src.spec, src.pause, src.skip, false, false)))
  {
    acts, t := [], s;
    if s.pass.Some? {
      acts, t := Go(s, acts, t, ReplicaEnd);
    }
    acts, t := Go(s, acts, t, ReplicaRead);
  }

  lemma {:induction false} Drain(s: State) returns (acts: seq<Action>, t: State)
    ensures Runs(s, acts) && After(s, acts) == t
    ensures t == s.(workload := Emptied(s.workload))
    decreases Pods(s)
  {
    acts, t := [], s;
    if Pods(s) > 0 {
      RunsOne(s, PodDown(0));
      acts, t := Drain(Apply(s, PodDown(0)));
      RunsAppend(s, [PodDown(0)], acts);
      acts := [PodDown(0)] + acts;
    }
  }

  /** The pods of an annotated workload are replaced by one with a healthy sidecar. */
  lemma Refresh(s: State) returns (acts: seq<Action>, t: State, pod: Pod)
    requires s.workload.Some? && s.workload.value.Desired() > 0 && s.workload.value.annotated && s.source.Some?
    ensures Runs(s, acts) && After(s, acts) == t
    ensures t == WithPods(s, [pod]) && pod.sidecar.Up?
  {
    acts, t := Drain(s);
    acts, t := Go(s, acts, t, PodUp);
    acts, t := Go(s, acts, t, PodSidecar(0, Up));
    pod := t.workload.value.pods[0];
    assert t.workload.value.pods == [pod];
  }

  /** All pods but one with a sidecar go, and that sidecar becomes healthy. */
  lemma {:induction false} Isolate(s: State, i: nat) returns (acts: seq<Action>, t: State, pod: Pod)
    requires s.workload.Some? && i < |s.workload.value.pods| && !s.workload.value.pods[i].sidecar.NotInjected?
    ensures Runs(s, acts) && After(s, acts) == t
    ensures t == WithPods(s, [pod]) && pod.sidecar.Up?
    decreases Pods(s)
  {
    if Pods(s) == 1 {
      acts, t := Go(s, [], s, PodSidecar(0, Up));
      pod := t.workload.value.pods[0];
      assert t.workload.value.pods == [pod];
    } else {
      var a := PodDown(if i == 0 then 1 else 0);
      RunsOne(s, a);
      acts, t, pod := Isolate(Apply(s, a), if i == 0 then 0 else i - 1);
      RunsAppend(s, [a], acts);
      acts := [a] + acts;
    }
  }

  /** One way or the other a healthy sidecar is seen in the only pod. */
  lemma Revive(s: State) returns (acts: seq<Action>, t: State, pod: Pod)
    requires s.source.Some? && s.pass.Some? && s.pass.value.wrote
    requires s.workload.Some? && s.workload.value.Desired() > 0
    requires s.workload.value.Desired() == 1 || s.workload.value.annotated ||
             exists p | p in s.workload.value.pods :: !p.sidecar.NotInjected?
    ensures Runs(s, acts) && After(s, acts) == t && pod.sidecar.Up?
    ensures t == s.(workload := t.workload) && t.workload.Some? && t.workload.value.pods == [pod]
    ensures t.workload.value.replicas == s.workload.value.replicas
  {
    if s.workload.value.annotated {
      acts, t, pod := Refresh(s);
    } else if s.workload.value.Desired() == 1 {
      RunsOne(s, ReplicaAnnotate);
      acts, t, pod := Refresh(Apply(s, ReplicaAnnotate));
      RunsAppend(s, [ReplicaAnnotate], acts);
      acts := [ReplicaAnnotate] + acts;
    } else {
      var i :| 0 <= i < |s.workload.value.pods| && !s.workload.value.pods[i].sidecar.NotInjected?;
      acts, t, pod := Isolate(s, i);
    }
  }

  /** Pausing to ScalingDown. */
  lemma Descend(s: State, n: nat) returns (acts: seq<Action>, t: State)
    requires s.status == Underway(Pausing, "", n) && Checked(s, true)
    ensures Runs(s, acts) && After(s, acts) == t
    ensures t == s.(status := Underway(ScalingDown, "", n), workload := Zeroed(s.workload))
    ensures acts == PlanScaleDown(s)
  {
    acts, t := [], s;
    if s.workload.Some? && s.workload.value.replicas != Some(0) {
      acts, t := Go(s, acts, t, RScaleDown);
    }
    acts, t := Go(s, acts, t, RToScalingDown);
  }

  /** ScalingDown to Running, the pods gone, the restore Job active. */
  lemma Create(s: State, n: nat) returns (acts: seq<Action>, t: State)
    requires s.status == Underway(ScalingDown, "", n) && s.source.Some? && s.restoreJob.None? && Down(s) && !s.taken
    ensures Runs(s, acts) && After(s, acts) == t
    ensures t == s.(status := Underway(Running, RestoreJobName(s), n),
                    restoreConfig := Some(Full(s.source.value.spec)), restoreJob := Some([]))
    ensures acts == PlanScalingDown(s, 0)
  {
    acts, t := Go(s, [], s, RRestoreConfig(s.source.value.spec));
    acts, t := Go(s, acts, t, RCreateRestoreJob);
    acts, t := Go(s, acts, t, RToRunning(0));
  }

  lemma Launch(s: State, n: nat) returns (acts: seq<Action>, t: State)
    requires s.status == Underway(ScalingDown, "", n) && s.source.Some? && s.restoreJob.None? && !s.taken
    requires s.workload.Some? ==> s.workload.value.Desired() == 0
    ensures Runs(s, acts) && After(s, acts) == t
    ensures t == s.(status := Underway(Running, RestoreJobName(s), n), workload := Emptied(s.workload),
                    restoreConfig := Some(Full(s.source.value.spec)), restoreJob := Some([]))
  {
    var u, more;
    acts, u := Drain(s);
    more, t := Create(u, n);
    RunsAppend(s, acts, more);
    acts := acts + more;
  }

  /** Running to Validating, the restore Job successful. */
  lemma Restore(s: State, n: nat) returns (acts: seq<Action>, t: State)
    requires s.status == Underway(Running, RestoreJobName(s), n) && s.restoreJob == Some([])
    ensures Runs(s, acts) && After(s, acts) == t
    ensures t == s.(status := Underway(Validating, RestoreJobName(s), n), restoreJob := Some([DONE]))
  {
    assert [] + [DONE] == [DONE] && VerdictOf([DONE]) == Succeeded;
    acts, t := Go(s, [], s, RestoreJobReport(DONE));
    acts, t := Go(s, acts, t, RToValidating);
  }

  /** Running to ScalingUp, both Jobs successful. */
  lemma Finish(s: State, n: nat) returns (acts: seq<Action>, t: State)
    requires s.status == Underway(Running, RestoreJobName(s), n)
    requires s.restoreJob == Some([]) && s.validateJob.None?
    ensures Runs(s, acts) && After(s, acts) == t
    ensures t == s.(status := Underway(ScalingUp, RestoreJobName(s), n),
                    restoreJob := Some([DONE]), validateJob := Some([DONE]))
  {
    assert [] + [DONE] == [DONE] && VerdictOf([DONE]) == Succeeded;
    acts, t := Restore(s, n);
    acts, t := Go(s, acts, t, RCreateValidateJob);
    acts, t := Go(s, acts, t, ValidateJobReport(DONE));
    acts, t := Go(s, acts, t, RToScalingUp);
  }

  /** The first two steps of ScalingUp. */
  lemma OpenUp(s: State) returns (acts: seq<Action>, t: State)
    requires s.status.phase.ScalingUp? && s.source.Some? && s.source.value.pause
    ensures Runs(s, acts) && After(s, acts) == t
    ensures t == s.(source := Some(s.source.value.(skip := true, pause := false)), torn := false)
  {
    acts, t := [], s;
    if !s.source.value.skip {
      acts, t := Go(s, acts, t, RSetSkip);
    }
    acts, t := Go(s, acts, t, RResume);
  }

  // ---- An unsettled start breaks the pause window ----

  /** An unsettled replica gets to a paused ConfigMap with a reconcile about to overwrite it. */
  lemma Unsettle(s: State) returns (acts: seq<Action>, t: State)
    requires Fresh(s) && !Settled(s)
    ensures Runs(s, acts) && After(s, acts) == t
    ensures t == s.(config := Some(Paused), pass := t.pass, torn := t.torn)
    ensures Unwritten(t) && !t.pass.value.pause && (t.torn ==> !t.source.value.pause)
  {
    acts, t := [], s;
    if s.config != Some(Paused) {
      acts, t := Go(s, acts, t, ReplicaWrite);
    }
    if !(Unwritten(t) && !t.pass.value.pause) {
      var more;
      ghost var mid := t;
      more, t := Look(mid);
      RunsAppend(s, acts, more);
      acts := acts + more;
    }
  }

  /** The restore starts, and that reconcile writes while the restore Job is active. */
  lemma BreakWindow(s: State) returns (acts: seq<Action>, t: State)
    requires Fresh(s) && !Settled(s) && !s.taken
    ensures Runs(s, acts) && After(s, acts) == t
    ensures !Window(t)
    ensures t.status == Underway(Running, RestoreJobName(s), Born(s)) && t.restoreName == s.restoreName
    ensures t.restoreJob == Some([]) && t.validateJob.None? && t.workload == Emptied(Zeroed(s.workload))
    ensures t.source == Some(s.source.value.(pause := true)) && t.config.Some? && t.config.value.Full?
  {
    var u, v, w, x;
    var a, b, c, d;
    a, u := Unsettle(s);
    b, v := Start(u);
    c, w := Descend(v, Born(s));
    d, x := Launch(w, Born(s));
    RunsAppend(s, a, b);
    RunsAppend(s, a + b, c);
    RunsAppend(s, a + b + c, d);
    acts, t := Go(s, a + b + c + d, x, ReplicaWrite);
    PausedTextIsPaused(t.config.value);
  }

  /** A list of actions from the start is a run. */
  lemma FromStart(s0: State, acts: seq<Action>)
    requires Runs(s0, acts)
    ensures ValidRun(s0, acts) && Final(s0, acts) == After(s0, acts)
  {
    Prolong(s0, [], acts);
    assert [] + acts == acts;
  }

  lemma WindowAtEnd(s0: State, acts: seq<Action>)
    requires Fresh(s0) && (Settled(s0) || s0.taken) && ValidRun(s0, acts)
    ensures Window(Final(s0, acts))
  {
    if Settled(s0) {
      PauseWindow(s0, acts, |acts|);
    } else {
      TakenNeverRuns(s0, acts, |acts|);
    }
    assert acts[..|acts|] == acts;
  }

  /**
   The pause window holds in every run exactly from the settled starts, and from those whose
   ConfigMap name is taken, which never get to run a Job.
   */
  lemma WindowExact(s0: State)
    requires Fresh(s0) && Usable(s0)
    ensures Settled(s0) || s0.taken <==> forall acts | ValidRun(s0, acts) :: Window(Final(s0, acts))
  {
    if Settled(s0) || s0.taken {
      forall acts | ValidRun(s0, acts)
        ensures Window(Final(s0, acts))
      {
        WindowAtEnd(s0, acts);
      }
    } else {
      var acts, _ := BreakWindow(s0);
      FromStart(s0, acts);
    }
  }

  /** With no reconcile in flight: unless the ConfigMap still holds the paused text without the annotation. */
  lemma WindowExactAtRest(s0: State)
    requires Fresh(s0) && Usable(s0) && s0.pass.None?
    ensures !(s0.config == Some(Paused) && !s0.source.value.pause) || s0.taken <==>
            forall acts | ValidRun(s0, acts) :: Window(Final(s0, acts))
  {
    WindowExact(s0);
  }

  // ---- An unsettled start also breaks the scale-up's wait for the ConfigMap ----

  /** The run has come to where the success path raises the count. */
  predicate Raises(s0: State, acts: seq<Action>) {
    ValidRun(s0, acts) && Enabled(Final(s0, acts), RScaleUp(Born(s0)))
  }

  lemma BreakWait(s: State) returns (acts: seq<Action>, t: State)
    requires Fresh(s) && !Settled(s) && !s.taken && Born(s) > 0
    ensures Runs(s, acts) && After(s, acts) == t
    ensures Enabled(t, RScaleUp(Born(s))) && !Replicating(t)
  {
    var u, v, w, x;
    var a, b, c, d;
    a, u := BreakWindow(s);
    b, v := Look(u);
    c, w := Finish(v, Born(s));
    d, x := OpenUp(w);
    RunsAppend(s, a, b);
    RunsAppend(s, a + b, c);
    RunsAppend(s, a + b + c, d);
    acts, t := Go(s, a + b + c + d, x, ReplicaWrite);
    PausedTextIsPaused(t.config.value);
  }

  lemma RaisesGate(s0: State, acts: seq<Action>)
    requires Fresh(s0) && Raises(s0, acts)
    ensures !s0.taken
    ensures Settled(s0) ==> Replicating(Final(s0, acts))
    ensures !SkipPending(s0) ==> SkipSet(Final(s0, acts))
  {
    var more := acts + [RScaleUp(Born(s0))];
    Extend(s0, acts, RScaleUp(Born(s0)));
    assert more[..|acts|] == acts;
    ScaleUpGate(s0, more, |acts|);
    if s0.taken {
      TakenNeverRuns(s0, more, |acts|);
    }
    if !SkipPending(s0) {
      ScaleUpGateWithSkip(s0, more, |acts|);
    }
  }

  /** For a workload that wants pods, the count is raised only with a full ConfigMap exactly from those starts. */
  lemma WaitExact(s0: State)
    requires Fresh(s0) && Usable(s0) && Born(s0) > 0
    ensures Settled(s0) || s0.taken <==> forall acts | Raises(s0, acts) :: Replicating(Final(s0, acts))
  {
    if Settled(s0) || s0.taken {
      forall acts | Raises(s0, acts)
        ensures Replicating(Final(s0, acts))
      {
        RaisesGate(s0, acts);
      }
    } else {
      var acts, _ := BreakWait(s0);
      FromStart(s0, acts);
    }
  }

  // ---- A sight of skip at the start breaks the scale-up's hold on skip ----

  /** Pausing with the pause seen and a reconcile in flight that may come to remove skip. */
  lemma Sight(s: State) returns (acts: seq<Action>, t: State)
    requires Fresh(s) && Usable(s) && SkipPending(s)
    ensures Runs(s, acts) && After(s, acts) == t
    ensures t == s.(status := Underway(Pausing, "", Born(s)), source := Some(s.source.value.(pause := true)),
                    config := t.config, pass := t.pass, torn := t.torn)
    ensures Checked(t, true) && t.pass.Some? && t.pass.value.wrote && Eager(t.pass.value)
    ensures t.pass.value.clearing || Injectable(s)
  {
    acts, t := Start(s);
    if s.source.value.skip && Injectable(s) {
      var mid, more := t, [];
      more, t := Catch(mid);
      RunsAppend(s, acts, more);
      acts := acts + more;
    } else if Unwritten(s) {
      acts, t := Go(s, acts, t, ReplicaWrite);
    }
  }

  /** A healthy sidecar, a scale-down that is issued, and the sight of the sidecar before the pods are gone. */
  lemma CarrySight(s: State, n: nat) returns (acts: seq<Action>, t: State)
    requires s.status == Underway(Pausing, "", n) && s.source.Some? && s.source.value.pause && Checked(s, true)
    requires s.pass.Some? && s.pass.value.wrote && Eager(s.pass.value) && !s.pass.value.clearing
    requires s.workload.Some? && s.workload.value.Desired() > 0
    requires s.workload.value.Desired() == 1 || s.workload.value.annotated ||
             exists p | p in s.workload.value.pods :: !p.sidecar.NotInjected?
    ensures Runs(s, acts) && After(s, acts) == t
    ensures t.status == Underway(ScalingDown, "", n) && Clearing(t)
    ensures t == s.(status := t.status, workload := t.workload, pass := t.pass)
    ensures t.workload.Some? && t.workload.value.replicas == Some(0)
  {
    var u, v;
    var a, b;
    var pod;
    a, u, pod := Revive(s);
    b, v := Descend(u, n);
    RunsAppend(s, a, b);
    assert pod in v.workload.value.pods;
    acts, t := Go(s, a + b, v, ReplicaObserve);
  }

  lemma ScaledWithSight(s: State) returns (acts: seq<Action>, t: State)
    requires Fresh(s) && Usable(s) && SkipPending(s) && Born(s) > 0
    ensures Runs(s, acts) && After(s, acts) == t
    ensures t.status == Underway(ScalingDown, "", Born(s)) && Clearing(t)
    ensures t.source == Some(s.source.value.(pause := true)) && t.taken == s.taken
    ensures t.restoreJob.None? && t.validateJob.None? && t.workload.Some? && t.workload.value.replicas == Some(0)
  {
    var u, more;
    acts, u := Sight(s);
    if Clearing(u) {
      more, t := Descend(u, Born(s));
    } else {
      more, t := CarrySight(u, Born(s));
    }
    RunsAppend(s, acts, more);
    acts := acts + more;
  }

  /** The scale-up with the removal slipping in between. */
  lemma LetGo(s: State, n: nat) returns (acts: seq<Action>, t: State)
    requires s.status == Underway(ScalingUp, RestoreJobName(s), n) && s.source.Some? && s.source.value.pause
    requires s.pass.Some? && s.pass.value.clearing
    requires s.workload.Some? && s.workload.value.replicas == Some(0) && n > 0
    ensures Runs(s, acts) && After(s, acts) == t
    ensures Enabled(t, RScaleUp(n)) && t.source == Some(s.source.value.(skip := false, pause := false))
    ensures t.pass.Some? && t.pass.value.wrote && Idle(t)
  {
    var u, more;
    acts, u := OpenUp(s);
    acts, u := Go(s, acts, u, ReplicaClear);
    more, t := Catch(u);
    RunsAppend(s, acts, more);
    acts := acts + more;
  }

  /** From ScalingDown to there. */
  lemma SpendSight(s: State, n: nat) returns (acts: seq<Action>, t: State)
    requires s.status == Underway(ScalingDown, "", n) && s.source.Some? && s.source.value.pause
    requires s.restoreJob.None? && s.validateJob.None? && !s.taken && Clearing(s)
    requires s.workload.Some? && s.workload.value.replicas == Some(0) && n > 0
    ensures Runs(s, acts) && After(s, acts) == t
    ensures Enabled(t, RScaleUp(n)) && t.source == Some(s.source.value.(skip := false, pause := false))
    ensures t.pass.Some? && t.pass.value.wrote && Idle(t)
  {
    var u, v;
    var a, b, c;
    a, u := Launch(s, n);
    b, v := Finish(u, n);
    c, t := LetGo(v, n);
    RunsAppend(s, a, b);
    RunsAppend(s, a + b, c);
    acts := a + b + c;
  }

  lemma BreakSkip(s: State) returns (acts: seq<Action>, t: State)
    requires Fresh(s) && Usable(s) && SkipPending(s) && !s.taken && Born(s) > 0
    ensures Runs(s, acts) && After(s, acts) == t
    ensures Enabled(t, RScaleUp(Born(s))) && t.source == Some(s.source.value.(skip := false, pause := false))
    ensures t.pass.Some? && t.pass.value.wrote && Idle(t)
  {
    var u, more;
    acts, u := ScaledWithSight(s);
    more, t := SpendSight(u, Born(s));
    RunsAppend(s, acts, more);
    acts := acts + more;
  }

  /**
   For a workload that wants pods, the count is raised only with skip-archive-check set exactly
   from the starts without a sight of skip, and from those that never get there.
   */
  lemma SkipExact(s0: State)
    requires Fresh(s0) && Usable(s0) && Born(s0) > 0
    ensures !SkipPending(s0) || s0.taken <==> forall acts | Raises(s0, acts) :: SkipSet(Final(s0, acts))
  {
    if SkipPending(s0) && !s0.taken {
      var acts, _ := BreakSkip(s0);
      FromStart(s0, acts);
    } else {
      forall acts | Raises(s0, acts)
        ensures SkipSet(Final(s0, acts))
      {
        RaisesGate(s0, acts);
      }
    }
  }

  /**
   With no reconcile in flight: unless the annotation is set when the restore is created, over a
   workload that wants one pod, or has an annotated template or a pod with a sidecar.
   */
  lemma SkipExactAtRest(s0: State)
    requires Fresh(s0) && Usable(s0) && Born(s0) > 0 && s0.pass.None?
    ensures !(s0.source.value.skip && Injectable(s0)) || s0.taken <==>
            forall acts | Raises(s0, acts) :: SkipSet(Final(s0, acts))
  {
    SkipExact(s0);
  }

  /** And without auto-restore the next pod from an annotated template then carries the archive-check container. */
  lemma BlockedPod(s0: State) returns (acts: seq<Action>)
    requires Fresh(s0) && Usable(s0) && SkipPending(s0) && !s0.taken && Born(s0) > 0
    requires !s0.source.value.spec.autoRestore
    ensures Runs(s0, acts) && |acts| >= 2
    ensures acts[|acts| - 2] == RScaleUp(Born(s0)) && acts[|acts| - 1] == PodUp
    ensures NewestGuarded(After(s0, acts))
  {
    var t;
    acts, t := BreakSkip(s0);
    acts, t := Go(s0, acts, t, ReplicaAnnotate);
    acts, t := Go(s0, acts, t, RScaleUp(Born(s0)));
    acts, t := Go(s0, acts, t, PodUp);
  }

  // ---- Every way to lose the count can happen ----

  /** A restore that has the workload at zero and the Job active, from any start. */
  lemma AtZero(s: State) returns (acts: seq<Action>, t: State)
    requires Fresh(s) && Usable(s) && !s.taken
    ensures Runs(s, acts) && After(s, acts) == t
    ensures t.status == Underway(Running, RestoreJobName(s), Born(s)) && t.restoreName == s.restoreName
    ensures t.restoreJob == Some([]) && t.validateJob.None? && t.workload == Emptied(Zeroed(s.workload))
    ensures t.source == Some(s.source.value.(pause := true))
  {
    var u, v, w;
    var a, b, c, d;
    a, u := Start(s);
    b, v := Catch(u);
    c, w := Descend(v, Born(s));
    d, t := Launch(w, Born(s));
    RunsAppend(s, a, b);
    RunsAppend(s, a + b, c);
    RunsAppend(s, a + b + c, d);
    acts := a + b + c + d;
  }

  /** Complete at zero after a lookup error, and Failed at zero after a clean-up that could not do its work. */
  lemma LossesHappen(s0: State) returns (complete: seq<Action>, failed: seq<Action>)
    requires Fresh(s0) && Usable(s0) && !s0.taken && Born(s0) > 0
    ensures Runs(s0, complete) && complete != [] && complete[|complete| - 1] == RComplete(true, 0)
    ensures Idle(After(s0, complete))
    ensures Runs(s0, failed) && failed != [] && failed[|failed| - 1] == RFailCleanup(false, 0)
    ensures Idle(After(s0, failed))
  {
    var a, z := AtZero(s0);
    complete := CompleteAtZero(s0, a, z, Born(s0));
    failed := FailAtZero(s0, a, z);
  }

  lemma FailAtZero(s0: State, a: seq<Action>, z: State) returns (acts: seq<Action>)
    requires Runs(s0, a) && After(s0, a) == z && Idle(z) && z.status.phase.Running? && z.restoreJob == Some([])
    ensures Runs(s0, acts) && acts != [] && acts[|acts| - 1] == RFailCleanup(false, 0)
    ensures Idle(After(s0, acts))
  {
    assert [] + [BROKEN] == [BROKEN] && VerdictOf([BROKEN]) == Broken;
    var t;
    acts, t := Go(s0, a, z, RestoreJobReport(BROKEN));
    acts, t := Go(s0, acts, t, RFailCleanup(false, 0));
  }

  lemma CompleteAtZero(s0: State, a: seq<Action>, z: State, n: nat) returns (acts: seq<Action>)
    requires Runs(s0, a) && After(s0, a) == z && Idle(z) && z.source.Some? && z.source.value.pause
    requires z.status == Underway(Running, RestoreJobName(z), n)
    requires z.restoreJob == Some([]) && z.validateJob.None?
    ensures Runs(s0, acts) && acts != [] && acts[|acts| - 1] == RComplete(true, 0)
    ensures Idle(After(s0, acts))
  {
    var b, u := Finish(z, n);
    var c, v := OpenUp(u);
    var d, w := Catch(v);
    RunsAppend(s0, a, b);
    RunsAppend(s0, a + b, c);
    RunsAppend(s0, a + b + c, d);
    var end;
    acts, end := Go(s0, a + b + c + d, w, RComplete(true, 0));
  }

  // ---- A workload with several pods gets annotated while it is at zero ----

  /** Annotated at zero, then scaled up: several pods with a sidecar on one database. */
  lemma SeveralSidecars(s0: State) returns (acts: seq<Action>, t: State)
    requires Fresh(s0) && Usable(s0) && !s0.taken && Born(s0) > 1
    ensures Runs(s0, acts) && After(s0, acts) == t && t.workload.Some? && t.workload.value.Desired() > 1
    ensures |t.workload.value.pods| > 1 && forall p | p in t.workload.value.pods :: !p.sidecar.NotInjected?
  {
    var a, z := AtZero(s0);
    var b, u := AnnotatedAtZero(z, Born(s0));
    RunsAppend(s0, a, b);
    acts, t := Go(s0, a + b, u, PodUp);
    acts, t := Go(s0, acts, t, PodUp);
  }

  lemma AnnotatedAtZero(s: State, n: nat) returns (acts: seq<Action>, t: State)
    requires s.status == Underway(Running, RestoreJobName(s), n) && n > 0
    requires s.restoreJob == Some([]) && s.validateJob.None? && s.source.Some? && s.source.value.pause
    requires s.workload.Some? && s.workload.value.replicas == Some(0) && s.workload.value.pods == []
    ensures Runs(s, acts) && After(s, acts) == t
    ensures t.source.Some? && t.workload == Some(Workload(Some(n), [], true))
  {
    var a, u := Finish(s, n);
    var b, v := OpenUp(u);
    var c, w := Catch(v);
    RunsAppend(s, a, b);
    RunsAppend(s, a + b, c);
    acts, t := Go(s, a + b + c, w, ReplicaAnnotate);
    acts, t := Go(s, acts, t, RScaleUp(n));
  }
}

/**
 The restore controller itself goes where Races and Progress say it can: each method drives a
 `Restorer` through whole undisturbed reconciles, or, where somebody else moves in the middle of
 a reconcile, through that reconcile's calls in their order.
 */
module Replays {
  import opened Wrappers
  import opened LitestreamConfig
  import opened Cluster
  import opened Invariant
  import opened RunTheorems
  import opened RestorePlan
  import opened Progress
  import opened RestoreController
  import opened Races

  // ---- Steps ----

  /** One move of somebody else. */
  method Other(r: Restorer, a: Action)
    requires r.Valid() && !IsRestore(a) && Enabled(r.s, a)
    modifies r
    ensures r.Valid() && r.s0 == old(r.s0) && r.s == Apply(old(r.s), a)
  {
    r.Others([a]);
  }

  method PodGone(r: Restorer, i: nat)
    requires r.Valid() && r.s.workload.Some? && i < |r.s.workload.value.pods|
    modifies r
    ensures r.Valid() && r.s0 == old(r.s0)
    ensures var pods := old(r.s).workload.value.pods; r.s == WithPods(old(r.s), pods[..i] + pods[i + 1..])
  {
    Other(r, PodDown(i));
  }

  /** A Job without conditions gets its first. */
  method RestoreReports(r: Restorer, c: JobCondition)
    requires r.Valid() && r.s.restoreJob == Some([])
    modifies r
    ensures r.Valid() && r.s0 == old(r.s0) && r.s == old(r.s).(restoreJob := Some([c]))
  {
    assert [] + [c] == [c];
    Other(r, RestoreJobReport(c));
  }

  method ValidationReports(r: Restorer, c: JobCondition)
    requires r.Valid() && r.s.validateJob == Some([])
    modifies r
    ensures r.Valid() && r.s0 == old(r.s0) && r.s == old(r.s).(validateJob := Some([c]))
  {
    assert [] + [c] == [c];
    Other(r, ValidateJobReport(c));
  }

  /** From here on nobody else moves and every call is served. */
  method Calm(r: Restorer)
    requires r.Valid()
    modifies r
    ensures r.Valid() && r.Calm() && r.s0 == old(r.s0) && r.s == old(r.s) && r.acts == old(r.acts)
  {
    r.script, r.dead := [], false;
  }

  /** The next call is refused. */
  method Refuse(r: Restorer)
    requires r.Valid()
    modifies r
    ensures r.Valid() && r.Refusing() && r.s0 == old(r.s0) && r.s == old(r.s) && r.acts == old(r.acts)
  {
    r.script, r.dead := [Tick([], Refused)], false;
  }

  /** A calm stretch is where its actions lead. */
  lemma Led(r: Restorer, s: State, before: seq<Action>, more: seq<Action>)
    requires r.Valid() && ValidRun(r.s0, before) && s == Final(r.s0, before)
    requires Runs(s, more) && r.acts == before + more
    ensures r.s == After(s, more)
  {
    Prolong(r.s0, before, more);
  }

  method ReplayStart(r: Restorer)
    requires r.Valid() && Usable(r.s) && Early(r.s.status.phase)
    requires r.s.status == Status(r.s.status.phase, "", None, None, None)
    modifies r
    ensures r.Valid() && r.s0 == old(r.s0)
    ensures r.s == old(r.s).(status := Underway(Pausing, "", Born(old(r.s))), torn := r.s.torn,
                             source := Some(old(r.s).source.value.(pause := true)))
  {
    ghost var _, _ := Start(r.s);
    r.ReconcileCalmly(0);
  }

  method ReplayDescend(r: Restorer, ghost n: nat)
    requires r.Valid() && Usable(r.s) && r.s.status == Underway(Pausing, "", n)
    requires r.s.source.value.pause && r.s.config == Some(Paused)
    modifies r
    ensures r.Valid() && r.s0 == old(r.s0)
    ensures r.s == old(r.s).(status := Underway(ScalingDown, "", n), workload := Zeroed(old(r.s).workload))
  {
    ghost var _, _ := Descend(r.s, n);
    r.ReconcileCalmly(0);
  }

  method ReplayDrain(r: Restorer)
    requires r.Valid()
    modifies r
    ensures r.Valid() && r.s0 == old(r.s0) && r.s == old(r.s).(workload := Emptied(old(r.s).workload))
  {
    while r.s.workload.Some? && |r.s.workload.value.pods| > 0
      invariant r.Valid() && r.s0 == old(r.s0)
      invariant r.s == old(r.s).(workload := r.s.workload)
      invariant Emptied(r.s.workload) == Emptied(old(r.s).workload)
      decreases Pods(r.s)
    {
      PodGone(r, 0);
    }
  }

  method ReplayCreate(r: Restorer, ghost n: nat)
    requires r.Valid() && Usable(r.s) && !r.s.taken && r.s.status == Underway(ScalingDown, "", n)
    requires r.s.restoreJob.None? && Down(r.s)
    modifies r
    ensures r.Valid() && r.s0 == old(r.s0)
    ensures r.s == old(r.s).(status := Underway(Running, RestoreJobName(old(r.s)), n), restoreJob := Some([]),
                             restoreConfig := r.s.restoreConfig)
  {
    ghost var _, _ := Create(r.s, n);
    r.ReconcileCalmly(0);
  }

  /** From Pausing, with the pause in the ConfigMap, to an active restore Job. */
  method ReplayLaunch(r: Restorer, ghost n: nat)
    requires r.Valid() && Usable(r.s) && !r.s.taken && r.s.status == Underway(Pausing, "", n)
    requires r.s.source.value.pause && r.s.config == Some(Paused) && r.s.restoreJob.None?
    modifies r
    ensures r.Valid() && r.s0 == old(r.s0)
    ensures r.s == old(r.s).(status := Underway(Running, RestoreJobName(old(r.s)), n), restoreJob := Some([]),
                             restoreConfig := r.s.restoreConfig, workload := Emptied(Zeroed(old(r.s).workload)))
  {
    ReplayDescend(r, n);
    ReplayDrain(r);
    ReplayCreate(r, n);
  }

  /** The restore Job succeeds. */
  method ReplayRestore(r: Restorer, ghost n: nat)
    requires r.Valid() && Usable(r.s) && r.s.status == Underway(Running, RestoreJobName(r.s), n)
    requires r.s.restoreJob == Some([])
    modifies r
    ensures r.Valid() && r.s0 == old(r.s0)
    ensures r.s == old(r.s).(status := Underway(Validating, RestoreJobName(old(r.s)), n), restoreJob := Some([DONE]))
  {
    RestoreReports(r, DONE);
    assert VerdictOf([DONE]) == Succeeded;
    RunsOne(r.s, RToValidating);
    r.ReconcileCalmly(0);
  }

  /** The validation Job is created. */
  method ReplayCheck(r: Restorer, ghost n: nat)
    requires r.Valid() && Usable(r.s) && r.s.status == Underway(Validating, RestoreJobName(r.s), n)
    requires r.s.validateJob.None?
    modifies r
    ensures r.Valid() && r.s0 == old(r.s0) && r.s == old(r.s).(validateJob := Some([]))
  {
    RunsOne(r.s, RCreateValidateJob);
    r.ReconcileCalmly(0);
  }

  /** It succeeds. */
  method ReplayValidated(r: Restorer, ghost n: nat)
    requires r.Valid() && Usable(r.s) && r.s.status == Underway(Validating, RestoreJobName(r.s), n)
    requires r.s.validateJob == Some([])
    modifies r
    ensures r.Valid() && r.s0 == old(r.s0)
    ensures r.s == old(r.s).(status := Underway(ScalingUp, RestoreJobName(old(r.s)), n), validateJob := Some([DONE]))
  {
    ValidationReports(r, DONE);
    assert VerdictOf([DONE]) == Succeeded;
    RunsOne(r.s, RToScalingUp);
    r.ReconcileCalmly(0);
  }

  method ReplayFinish(r: Restorer, ghost n: nat)
    requires r.Valid() && Usable(r.s) && r.s.status == Underway(Running, RestoreJobName(r.s), n)
    requires r.s.restoreJob == Some([]) && r.s.validateJob.None?
    modifies r
    ensures r.Valid() && r.s0 == old(r.s0)
    ensures r.s == old(r.s).(status := Underway(ScalingUp, RestoreJobName(old(r.s)), n),
                             restoreJob := Some([DONE]), validateJob := Some([DONE]))
  {
    ReplayRestore(r, n);
    ReplayCheck(r, n);
    ReplayValidated(r, n);
  }

  method ReplayLook(r: Restorer)
    requires r.Valid() && r.s.source.Some?
    modifies r
    ensures r.Valid() && r.s0 == old(r.s0)
    ensures var src := old(r.s).source.value;
            r.s == old(r.s).(pass := Some(Pass(src.spec, src.pause, src.skip, false, false)))
  {
    if r.s.pass.Some? {
      Other(r, ReplicaEnd);
    }
    Other(r, ReplicaRead);
  }

  /** A replica reconcile up to its ConfigMap write. */
  method ReplayCatch(r: Restorer)
    requires r.Valid() && r.s.source.Some?
    modifies r
    ensures r.Valid() && r.s0 == old(r.s0)
    ensures var src := old(r.s).source.value;
            r.s == old(r.s).(config := Wanted(src), pass := Some(Pass(src.spec, src.pause, src.skip, true, false)))
  {
    ReplayLook(r);
    Other(r, ReplicaWrite);
  }

  /** Steps 1 and 2 of the scale-up. */
  method ReplayRelease(r: Restorer)
    requires r.Valid() && r.s.status.phase.ScalingUp? && r.s.source.Some? && r.s.source.value.pause
    modifies r
    ensures r.Valid() && r.s0 == old(r.s0)
    ensures r.s == old(r.s).(source := Some(old(r.s).source.value.(skip := true, pause := false)), torn := false)
  {
    Calm(r);
    var ok := r.Release(r.s.source.value);
    assert ok;
  }

  // ---- The pause window ----

  method ReplayUnsettle(r: Restorer)
    requires r.Valid() && Fresh(r.s) && !Settled(r.s)
    modifies r
    ensures r.Valid() && r.s0 == old(r.s0)
    ensures r.s == old(r.s).(config := Some(Paused), pass := r.s.pass, torn := r.s.torn)
    ensures Unwritten(r.s) && !r.s.pass.value.pause
  {
    if r.s.config != Some(Paused) {
      Other(r, ReplicaWrite);
    }
    if !(Unwritten(r.s) && !r.s.pass.value.pause) {
      ReplayLook(r);
    }
  }

  /** The restore starts over the old paused text, and the reconcile in flight writes under the active Job. */
  method ReplayTorn(r: Restorer)
    requires r.Valid() && Fresh(r.s) && Usable(r.s) && !Settled(r.s) && !r.s.taken
    modifies r
    ensures r.Valid() && r.s0 == old(r.s0) && !Window(r.s)
    ensures r.s.status == Underway(Running, RestoreJobName(r.s), Born(old(r.s)))
    ensures r.s.restoreJob == Some([]) && r.s.validateJob.None? && r.s.config.Some? && r.s.config.value.Full?
    ensures r.s.source == Some(old(r.s).source.value.(pause := true))
    ensures r.s.workload == Emptied(Zeroed(old(r.s).workload))
  {
    ghost var n := Born(r.s);
    ReplayUnsettle(r);
    ReplayStart(r);
    ReplayLaunch(r, n);
    Other(r, ReplicaWrite);
    PausedTextIsPaused(r.s.config.value);
  }

  /**
   From an unsettled start, three undisturbed reconciles between moves of the replica controller
   and the draining pods end with the restore Job active and the full configuration in the
   ConfigMap.
   */
  method ReplayWindow(s0: State) returns (r: Restorer)
    requires Fresh(s0) && Usable(s0) && !Settled(s0) && !s0.taken
    ensures r.Valid() && r.s0 == s0 && Active(r.s.restoreJob) && !Window(r.s)
  {
    r := new Restorer(s0);
    ReplayTorn(r);
  }

  // ---- The wait for the ConfigMap ----

  /** Step 4 and the final status, undisturbed: the count is raised in the state it started from. */
  method ReplayRaise(r: Restorer, ghost n: nat) returns (ghost k: nat)
    requires r.Valid() && r.s.status == Underway(ScalingUp, RestoreJobName(r.s), n) && GatePassed(r.s)
    requires n > 0 && r.s.workload.Some? && r.s.workload.value.replicas == Some(0)
    modifies r
    ensures r.Valid() && r.s0 == old(r.s0)
    ensures k < |r.acts| && r.acts[k] == RScaleUp(n) && At(r.s0, r.acts, k) == old(r.s)
  {
    Calm(r);
    k := |r.acts|;
    ghost var before := r.acts;
    r.CompleteRestore(r.s.status, 0);
    AtPrefix(r.s0, r.acts, before);
  }

  /** An outdated reconcile writes between the look at the ConfigMap and the scale-up. */
  method ReplayWait(s0: State) returns (r: Restorer, ghost k: nat)
    requires Fresh(s0) && Usable(s0) && !Settled(s0) && !s0.taken && Born(s0) > 0
    ensures r.Valid() && r.s0 == s0
    ensures k < |r.acts| && r.acts[k] == RScaleUp(Born(s0)) && !Replicating(At(s0, r.acts, k))
  {
    r := new Restorer(s0);
    ReplayTorn(r);
    ReplayLook(r);
    ReplayFinish(r, Born(s0));
    ReplayRelease(r);
    ReplayTear(r);
    k := ReplayRaise(r, Born(s0));
  }

  /** The ConfigMap is seen full, and an outdated reconcile writes the paused text. */
  method ReplayTear(r: Restorer)
    requires r.Valid() && r.s.source.Some? && !r.s.source.value.pause && Agrees(r.s.config, false)
    requires Unwritten(r.s) && r.s.pass.value.pause
    modifies r
    ensures r.Valid() && r.s0 == old(r.s0) && !Replicating(r.s)
    ensures r.s == old(r.s).(config := Some(Paused), pass := r.s.pass, torn := true)
  {
    Calm(r);
    var paused := r.SeesPaused();
    assert paused == Found(false);
    Other(r, ReplicaWrite);
    PausedTextIsPaused(r.s.config.value);
  }

  // ---- The hold on skip ----

  /** Pausing, the pause seen, and a reconcile in flight that may come to remove skip. */
  method ReplaySight(r: Restorer)
    requires r.Valid() && Fresh(r.s) && Usable(r.s) && SkipPending(r.s)
    modifies r
    ensures r.Valid() && r.s0 == old(r.s0)
    ensures r.s == old(r.s).(status := Underway(Pausing, "", Born(old(r.s))), config := r.s.config, pass := r.s.pass,
                             source := Some(old(r.s).source.value.(pause := true)), torn := r.s.torn)
    ensures Checked(r.s, true) && r.s.pass.Some? && r.s.pass.value.wrote && Eager(r.s.pass.value)
    ensures r.s.pass.value.clearing || Injectable(old(r.s))
  {
    var catches := r.s.source.value.skip && Injectable(r.s);
    ReplayStart(r);
    if catches {
      ReplayCatch(r);
    } else if r.s.config != Some(Paused) {
      Other(r, ReplicaWrite);
    }
    Calm(r);
    var paused := r.SeesPaused();
    assert paused == Found(true);
    if !r.s.pass.value.wrote {
      Other(r, ReplicaWrite);
    }
  }

  /** A pod of an annotated workload comes up healthy in place of the present ones. */
  method ReplayRefresh(r: Restorer)
    requires r.Valid() && r.s.source.Some? && r.s.workload.Some?
    requires r.s.workload.value.annotated && r.s.workload.value.Desired() > 0
    modifies r
    ensures r.Valid() && r.s0 == old(r.s0) && r.s == old(r.s).(workload := r.s.workload) && OnlyUp(r.s)
    ensures r.s.workload.value.replicas == old(r.s).workload.value.replicas
  {
    ReplayDrain(r);
    Other(r, PodUp);
    Other(r, PodSidecar(0, Up));
  }

  /** One pod, and its sidecar is up. */
  predicate OnlyUp(s: State) {
    s.workload.Some? && |s.workload.value.pods| == 1 && s.workload.value.pods[0].sidecar.Up?
  }

  /** All pods but one go. */
  method ReplayAlone(r: Restorer, i: nat)
    requires r.Valid() && r.s.workload.Some? && i < |r.s.workload.value.pods|
    modifies r
    ensures r.Valid() && r.s0 == old(r.s0)
    ensures r.s == WithPods(old(r.s), [old(r.s).workload.value.pods[i]])
  {
    ghost var w := r.s.workload.value;
    var j: nat := i;
    while |r.s.workload.value.pods| > 1
      invariant r.Valid() && r.s0 == old(r.s0) && r.s.workload.Some? && j < |r.s.workload.value.pods|
      invariant r.s == WithPods(old(r.s), r.s.workload.value.pods) && r.s.workload.value.pods[j] == w.pods[i]
      decreases Pods(r.s)
    {
      if j == 0 {
        PodGone(r, 1);
      } else {
        PodGone(r, 0);
        j := j - 1;
      }
    }
    assert r.s.workload.value.pods == [w.pods[i]];
  }

  method ReplayIsolate(r: Restorer, i: nat)
    requires r.Valid() && r.s.workload.Some? && i < |r.s.workload.value.pods|
    requires !r.s.workload.value.pods[i].sidecar.NotInjected?
    modifies r
    ensures r.Valid() && r.s0 == old(r.s0) && r.s == old(r.s).(workload := r.s.workload) && OnlyUp(r.s)
    ensures r.s.workload.value.replicas == old(r.s).workload.value.replicas
  {
    ReplayAlone(r, i);
    Other(r, PodSidecar(0, Up));
  }

  /** The index of a pod with a sidecar. */
  method FindInjected(pods: seq<Pod>) returns (i: nat)
    requires exists p | p in pods :: !p.sidecar.NotInjected?
    ensures i < |pods| && !pods[i].sidecar.NotInjected?
  {
    i := 0;
    while pods[i].sidecar.NotInjected?
      invariant i < |pods| && forall j | 0 <= j < i :: pods[j].sidecar.NotInjected?
      decreases |pods| - i
    {
      assert exists j | 0 <= j < |pods| :: !pods[j].sidecar.NotInjected?;
      i := i + 1;
    }
  }

  /** One way or the other the only pod has a healthy sidecar. */
  method ReplayRevive(r: Restorer)
    requires r.Valid() && r.s.source.Some? && r.s.pass.Some? && r.s.pass.value.wrote
    requires r.s.workload.Some? && r.s.workload.value.Desired() > 0
    requires r.s.workload.value.Desired() == 1 || r.s.workload.value.annotated ||
             exists p | p in r.s.workload.value.pods :: !p.sidecar.NotInjected?
    modifies r
    ensures r.Valid() && r.s0 == old(r.s0) && r.s == old(r.s).(workload := r.s.workload) && OnlyUp(r.s)
    ensures r.s.workload.value.replicas == old(r.s).workload.value.replicas
  {
    if r.s.workload.value.annotated {
      ReplayRefresh(r);
    } else if r.s.workload.value.Desired() == 1 {
      Other(r, ReplicaAnnotate);
      ReplayRefresh(r);
    } else {
      var i := FindInjected(r.s.workload.value.pods);
      ReplayIsolate(r, i);
    }
  }

  /** The scale-down that followed the look at the ConfigMap. */
  method ReplayScaleDown(r: Restorer, ghost n: nat)
    requires r.Valid() && r.s.status == Underway(Pausing, "", n) && Checked(r.s, true)
    modifies r
    ensures r.Valid() && r.s0 == old(r.s0)
    ensures r.s == old(r.s).(status := Underway(ScalingDown, "", n), workload := Zeroed(old(r.s).workload))
  {
    Calm(r);
    ghost var s, before := r.s, r.acts;
    r.ScaleDown(r.s.status, 0);
    ghost var acts, _ := Descend(s, n);
    Led(r, s, before, acts);
  }

  /** A healthy sidecar, the scale-down, and the sight of the sidecar before the pods are gone. */
  method ReplaySee(r: Restorer, ghost n: nat)
    requires r.Valid() && r.s.status == Underway(Pausing, "", n) && r.s.source.Some? && Checked(r.s, true)
    requires r.s.pass.Some? && r.s.pass.value.wrote && Eager(r.s.pass.value) && !r.s.pass.value.clearing
    requires r.s.workload.Some? && r.s.workload.value.Desired() > 0
    requires r.s.workload.value.Desired() == 1 || r.s.workload.value.annotated ||
             exists p | p in r.s.workload.value.pods :: !p.sidecar.NotInjected?
    modifies r
    ensures r.Valid() && r.s0 == old(r.s0) && Clearing(r.s)
    ensures r.s == old(r.s).(status := Underway(ScalingDown, "", n), pass := r.s.pass, workload := r.s.workload)
    ensures r.s.workload.Some? && r.s.workload.value.replicas == Some(0)
  {
    ReplayRevive(r);
    ReplayScaleDown(r, n);
    ReplayObserve(r);
  }

  method ReplayObserve(r: Restorer)
    requires r.Valid() && OnlyUp(r.s) && r.s.workload.value.Desired() == 0
    requires r.s.pass.Some? && r.s.pass.value.wrote && Eager(r.s.pass.value) && !r.s.pass.value.clearing
    modifies r
    ensures r.Valid() && r.s0 == old(r.s0) && Clearing(r.s) && r.s == old(r.s).(pass := r.s.pass)
  {
    assert r.s.workload.value.pods[0] in r.s.workload.value.pods;
    Other(r, ReplicaObserve);
  }

  /** The reconcile in flight has seen a healthy sidecar, the workload is scaled down. */
  method ReplayCarry(r: Restorer)
    requires r.Valid() && Fresh(r.s) && Usable(r.s) && SkipPending(r.s) && Born(r.s) > 0
    modifies r
    ensures r.Valid() && r.s0 == old(r.s0) && Clearing(r.s)
    ensures r.s == old(r.s).(status := Underway(ScalingDown, "", Born(old(r.s))), config := r.s.config,
                             source := Some(old(r.s).source.value.(pause := true)), pass := r.s.pass,
                             workload := r.s.workload, torn := r.s.torn)
    ensures r.s.workload.Some? && r.s.workload.value.replicas == Some(0)
  {
    ghost var n := Born(r.s);
    ReplaySight(r);
    if r.s.pass.value.clearing {
      ReplayScaleDown(r, n);
    } else {
      ReplaySee(r, n);
    }
  }

  /** The removal slips in between the steps of the scale-up. */
  method ReplaySpend(r: Restorer, ghost n: nat) returns (ghost k: nat)
    requires r.Valid() && r.s.status == Underway(ScalingUp, RestoreJobName(r.s), n) && n > 0 && Clearing(r.s)
    requires Usable(r.s) && r.s.source.value.pause
    requires r.s.workload.Some? && r.s.workload.value.replicas == Some(0)
    modifies r
    ensures r.Valid() && r.s0 == old(r.s0)
    ensures k < |r.acts| && r.acts[k] == RScaleUp(n) && !SkipSet(At(r.s0, r.acts, k))
  {
    ReplayRelease(r);
    Other(r, ReplicaClear);
    ReplayCatch(r);
    Calm(r);
    var paused := r.SeesPaused();
    assert paused == Found(false);
    k := ReplayRaise(r, n);
  }

  /** From a start with a sight of skip the controller raises the count without skip. */
  method ReplaySkip(s0: State) returns (r: Restorer, ghost k: nat)
    requires Fresh(s0) && Usable(s0) && SkipPending(s0) && !s0.taken && Born(s0) > 0
    ensures r.Valid() && r.s0 == s0
    ensures k < |r.acts| && r.acts[k] == RScaleUp(Born(s0)) && !SkipSet(At(s0, r.acts, k))
  {
    r := new Restorer(s0);
    ReplayCarry(r);
    ReplayDrain(r);
    ReplayCreate(r, Born(s0));
    ReplayFinish(r, Born(s0));
    k := ReplaySpend(r, Born(s0));
  }

  // ---- Ends at zero ----

  method ReplayAtZero(s0: State) returns (r: Restorer)
    requires Fresh(s0) && Usable(s0) && !s0.taken
    ensures r.Valid() && r.s0 == s0
    ensures r.s.status == Underway(Running, RestoreJobName(r.s), Born(s0))
    ensures r.s.restoreJob == Some([]) && r.s.validateJob.None?
    ensures r.s.source == Some(s0.source.value.(pause := true)) && r.s.workload == Emptied(Zeroed(s0.workload))
    ensures fresh(r)
  {
    r := new Restorer(s0);
    ReplayStart(r);
    ReplayCatch(r);
    ReplayLaunch(r, Born(s0));
  }

  /** The lookup of step 4 is refused: Complete with the workload at zero. */
  method ReplayCompleteAtZero(s0: State) returns (r: Restorer)
    requires Fresh(s0) && Usable(s0) && !s0.taken && Born(s0) > 0
    ensures r.Valid() && r.s0 == s0 && r.s.status.phase.Complete? && Idle(r.s)
  {
    r := ReplayAtZero(s0);
    ReplayFinish(r, Born(s0));
    ReplayRelease(r);
    ReplayCatch(r);
    Calm(r);
    var paused := r.SeesPaused();
    assert paused == Found(false);
    Refuse(r);
    ghost var s, before := r.s, r.acts;
    r.CompleteRestore(r.s.status, 0);
    RunsOne(s, RComplete(true, 0));
    Led(r, s, before, [RComplete(true, 0)]);
  }

  /** The lookup of the clean-up is refused: Failed with the workload at zero. */
  method ReplayFailAtZero(s0: State) returns (r: Restorer)
    requires Fresh(s0) && Usable(s0) && !s0.taken && Born(s0) > 0
    ensures r.Valid() && r.s0 == s0 && r.s.status.phase.Failed? && Idle(r.s)
  {
    r := ReplayAtZero(s0);
    RestoreReports(r, BROKEN);
    assert VerdictOf([BROKEN]) == Broken;
    ReplayRefusedCleanup(r);
  }

  method ReplayRefusedCleanup(r: Restorer)
    requires r.Valid() && Abandoned(r.s) && r.s.source.Some? && r.s.source.value.pause
    modifies r
    ensures r.Valid() && r.s0 == old(r.s0) && r.s.status.phase.Failed? && r.s.workload == old(r.s).workload
  {
    Refuse(r);
    ghost var s, before := r.s, r.acts;
    r.FailRestoreWithCleanup(r.s.status, r.s.source.value, 0);
    ghost var acts, t := Go(s, [], s, RResume);
    acts, t := Go(s, acts, t, RFailCleanup(false, 0));
    Led(r, s, before, acts);
  }

  // ---- A clean-up starts the application on what failed its validation ----

  /** Validation fails, and one undisturbed reconcile later a pod starts on the database it rejected. */
  method ReplayRejected(s0: State) returns (r: Restorer)
    requires Fresh(s0) && Usable(s0) && !s0.taken && Born(s0) > 0
    ensures r.Valid() && r.s0 == s0
    ensures Done(r.s.restoreJob, Succeeded) && Done(r.s.validateJob, Broken)
    ensures r.s.workload.Some? && |r.s.workload.value.pods| > 0
  {
    r := ReplayAtZero(s0);
    ReplayRestore(r, Born(s0));
    ReplayCheck(r, Born(s0));
    ValidationReports(r, BROKEN);
    assert VerdictOf([DONE]) == Succeeded && VerdictOf([BROKEN]) == Broken;
    ReplayCleanup(r);
    ReplayPodUp(r);
  }

  method ReplayPodUp(r: Restorer)
    requires r.Valid() && r.s.workload.Some? && r.s.workload.value.Desired() > 0
    modifies r
    ensures r.Valid() && r.s0 == old(r.s0) && r.s == old(r.s).(workload := r.s.workload)
    ensures r.s.workload.Some? && |r.s.workload.value.pods| > 0
  {
    Other(r, PodUp);
  }

  method ReplayCleanup(r: Restorer)
    requires r.Valid() && Usable(r.s) && r.s.status.phase.Validating? && Done(r.s.validateJob, Broken)
    requires r.s.workload.Some?
    modifies r
    ensures r.Valid() && r.s0 == old(r.s0)
    ensures r.s.restoreJob == old(r.s).restoreJob && r.s.validateJob == old(r.s).validateJob
    ensures r.s.workload.Some? && r.s.workload.value.Desired() == Born(r.s0)
  {
    InvFinal(r.s0, r.acts);
    CleanupStage(Born(r.s0), r.s, 0);
    r.ReconcileCalmly(0);
  }

  // ---- A taken name ----

  /** However often it reconciles, the controller stays where it is. */
  method ReplayHang(s0: State, rounds: nat) returns (r: Restorer)
    requires Fresh(s0) && Usable(s0) && s0.taken
    ensures r.Valid() && r.s0 == s0 && Hung(r.s) && r.s.source.value.pause && Down(r.s)
  {
    r := new Restorer(s0);
    ReplayStart(r);
    ReplayCatch(r);
    ReplayDescend(r, Born(s0));
    ReplayDrain(r);
    ghost var stuck := r.s;
    for i := 0 to rounds
      invariant r.Valid() && r.s0 == s0 && r.s == stuck
    {
      r.ReconcileCalmly(0);
    }
  }
}

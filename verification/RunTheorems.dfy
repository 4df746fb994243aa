/**
 What every run of the restore protocol guarantees, stated over whole runs from a fresh restore.
 */
module RunTheorems {
  import opened Wrappers
  import opened LitestreamConfig
  import opened Cluster
  import opened Invariant

  // ---- Single writer and pause window ----

  /** While the restore Job is active there is no application pod and none is wanted. */
  lemma SingleWriter(s0: State, acts: seq<Action>, k: nat)
    requires Fresh(s0) && ValidRun(s0, acts) && k <= |acts|
    ensures var s := At(s0, acts, k);
            Active(s.restoreJob) && s.workload.Some? ==>
              s.workload.value.Desired() == 0 && |s.workload.value.pods| == 0
  {
    InvAt(s0, acts, k);
  }

  /** Nor is a pod ever admitted then, and validation never reads next to a writer either. */
  lemma NoAdmissionDuringJobs(s0: State, acts: seq<Action>, k: nat)
    requires Fresh(s0) && ValidRun(s0, acts) && k < |acts| && acts[k].PodUp?
    ensures !Active(At(s0, acts, k).restoreJob) && !Active(At(s0, acts, k).validateJob)
  {
    InvAt(s0, acts, k);
    AtStep(s0, acts, k);
  }

  /** While either Job is active and the source exists, replication is paused there: annotation and text. */
  predicate Window(s: State) {
    (Active(s.restoreJob) || Active(s.validateJob)) && s.source.Some? ==>
      s.source.value.pause && s.config.Some? && s.config.value.Text() == PAUSED_CONFIG
  }

  lemma PauseWindow(s0: State, acts: seq<Action>, k: nat)
    requires Fresh(s0) && Settled(s0) && ValidRun(s0, acts) && k <= |acts|
    ensures Window(At(s0, acts, k))
  {
    PauseAt(s0, acts, k);
  }

  /** The last of the restore's writes of its ConfigMap before k is at i. */
  predicate LastConfigWrite(acts: seq<Action>, i: nat, k: nat)
    requires k <= |acts|
  {
    i < k && acts[i].RRestoreConfig? && forall j | i < j < k :: !acts[j].RRestoreConfig?
  }

  lemma ConfigStep(s: State, a: Action)
    requires Enabled(s, a)
    ensures Apply(s, a).restoreConfig == if a.RRestoreConfig? then Some(Full(a.spec)) else s.restoreConfig
  {
  }

  lemma {:induction false} ConfigWrittenBy(s0: State, acts: seq<Action>, k: nat) returns (i: nat)
    requires Fresh(s0) && ValidRun(s0, acts) && k <= |acts| && At(s0, acts, k).restoreConfig.Some?
    ensures LastConfigWrite(acts, i, k) && At(s0, acts, k).restoreConfig == Some(Full(acts[i].spec))
    decreases k
  {
    AtStart(s0, acts);
    AtStep(s0, acts, k - 1);
    ConfigStep(At(s0, acts, k - 1), acts[k - 1]);
    if acts[k - 1].RRestoreConfig? {
      i := k - 1;
    } else {
      i := ConfigWrittenBy(s0, acts, k - 1);
    }
  }

  /**
   From any start the restore Job has its own ConfigMap, which holds the full configuration of the
   spec last written to it and is never the paused text.
   */
  lemma OwnConfig(s0: State, acts: seq<Action>, k: nat)
    requires Fresh(s0) && ValidRun(s0, acts) && k <= |acts|
    ensures var s := At(s0, acts, k);
            && (s.restoreJob.Some? ==> s.restoreConfig.Some?)
            && (s.restoreConfig.Some? ==>
                  && s.restoreConfig.value.Text() != PAUSED_CONFIG
                  && exists i: nat :: LastConfigWrite(acts, i, k) && s.restoreConfig == Some(Full(acts[i].spec)))
  {
    InvAt(s0, acts, k);
    if At(s0, acts, k).restoreConfig.Some? {
      var i := ConfigWrittenBy(s0, acts, k);
    }
    var s := At(s0, acts, k);
    if s.restoreConfig.Some? {
      PausedTextIsPaused(s.restoreConfig.value);
    }
  }

  // ---- Phase and status history ----

  function Rank(p: Phase): nat {
    match p
    case Unset => 0
    case Pending => 0
    case Pausing => 1
    case ScalingDown => 2
    case Running => 3
    case Validating => 4
    case ScalingUp => 5
    case Complete => 6
    case Failed => 7
  }

  /** How a later status may differ from an earlier one. */
  predicate Later(a: Status, b: Status) {
    && Rank(a.phase) <= Rank(b.phase)
    && (Terminal(a.phase) ==> b == a)
    && (a.original.Some? ==> b.original == a.original)
    && (a.start.Some? ==> b.start == a.start)
    && (a.jobName != "" ==> b.jobName == a.jobName)
  }

  lemma StatusWriteLater(s: State, a: Action)
    requires InvStatus(s) && Enabled(s, a) && IsStatusWrite(a)
    ensures Later(s.status, StatusAfter(s, a))
  {
  }

  lemma StepLater(s: State, a: Action)
    requires InvStatus(s) && Enabled(s, a)
    ensures Later(s.status, Apply(s, a).status)
  {
    if IsStatusWrite(a) {
      StatusWriteLater(s, a);
    }
  }

  lemma {:induction false} StatusHistory(s0: State, acts: seq<Action>, i: nat, j: nat)
    requires Fresh(s0) && ValidRun(s0, acts) && i <= j <= |acts|
    ensures Later(At(s0, acts, i).status, At(s0, acts, j).status)
    decreases j
  {
    if i < j {
      StatusHistory(s0, acts, i, j - 1);
      InvAt(s0, acts, j - 1);
      AtStep(s0, acts, j - 1);
      StepLater(At(s0, acts, j - 1), acts[j - 1]);
    }
  }

  /** Completion time exactly in terminal phases, start time once begun, the Job's name while it matters. */
  lemma StatusShape(s0: State, acts: seq<Action>, k: nat)
    requires Fresh(s0) && ValidRun(s0, acts) && k <= |acts|
    ensures var st := At(s0, acts, k).status;
            && (st.completion.Some? <==> Terminal(st.phase))
            && (st.start.Some? <==> !Early(st.phase))
            && (st.phase in {Running, Validating, ScalingUp, Complete} ==>
                  st.jobName == s0.restoreName + "-restore")
  {
    InvAt(s0, acts, k);
    NameKept(s0, acts, k);
  }

  lemma {:induction false} NameKept(s0: State, acts: seq<Action>, k: nat)
    requires ValidRun(s0, acts) && k <= |acts|
    ensures At(s0, acts, k).restoreName == s0.restoreName && At(s0, acts, k).taken == s0.taken
    decreases k
  {
    if k > 0 {
      NameKept(s0, acts, k - 1);
      AtStep(s0, acts, k - 1);
      if IsRestore(acts[k - 1]) {
        NameByRestore(At(s0, acts, k - 1), acts[k - 1]);
      } else {
        NameByOthers(At(s0, acts, k - 1), acts[k - 1]);
      }
    }
  }

  // ---- Replica count conservation ----

  /** The recorded count is the one from before the restore, whatever was retried in between. */
  lemma OriginalRecorded(s0: State, acts: seq<Action>, i: nat, k: nat)
    requires Fresh(s0) && ValidRun(s0, acts) && i < k <= |acts|
    requires acts[i].RToPausing? && At(s0, acts, i).workload.Some?
    ensures s0.workload.Some?
    ensures At(s0, acts, k).status.original ==
            Some(match s0.workload.value.replicas case None => 1 case Some(n) => n)
  {
    WorkloadFromStart(s0, acts, i);
    InvAt(s0, acts, i);
    AtStep(s0, acts, i);
    StatusHistory(s0, acts, i + 1, k);
  }

  lemma {:induction false} WorkloadFromStart(s0: State, acts: seq<Action>, k: nat)
    requires ValidRun(s0, acts) && k <= |acts| && At(s0, acts, k).workload.Some?
    ensures s0.workload.Some?
    decreases k
  {
    if k == 0 {
      AtStart(s0, acts);
    } else {
      AtStep(s0, acts, k - 1);
      if At(s0, acts, k - 1).workload.None? {
        WorkloadNotCreated(At(s0, acts, k - 1), acts[k - 1]);
      }
      WorkloadFromStart(s0, acts, k - 1);
    }
  }

  lemma WorkloadNotCreated(s: State, a: Action)
    requires Enabled(s, a) && s.workload.None?
    ensures Apply(s, a).workload.None?
  {
  }

  /** The start time is that of the first status write, the completion time that of the end. */
  lemma TimesRecorded(s0: State, acts: seq<Action>, i: nat, k: nat)
    requires Fresh(s0) && ValidRun(s0, acts) && i < k <= |acts|
    ensures acts[i].RToPausing? ==> At(s0, acts, k).status.start == Some(acts[i].now)
    ensures IsEnd(acts[i]) ==> At(s0, acts, k).status.completion == Some(acts[i].now)
    ensures acts[i].RFail? && Early(At(s0, acts, i).status.phase) ==>
              At(s0, acts, k).status.start == Some(acts[i].now)
  {
    AtStep(s0, acts, i);
    StatusHistory(s0, acts, i + 1, k);
    if IsStatusWrite(acts[i]) {
      InvAt(s0, acts, i);
      TimesStep(At(s0, acts, i), acts[i]);
    }
  }

  lemma TimesStep(s: State, a: Action)
    requires InvStatus(s) && Enabled(s, a) && IsStatusWrite(a)
    ensures a.RToPausing? ==> Apply(s, a).status.start == Some(a.now)
    ensures IsEnd(a) ==> Terminal(Apply(s, a).status.phase) && Apply(s, a).status.completion == Some(a.now)
    ensures a.RFail? && Early(s.status.phase) ==> Apply(s, a).status.start == Some(a.now)
  {
    StatusWriteFrame(s, a);
  }

  predicate IsEnd(a: Action) { a.RComplete? || a.RFail? || a.RFailCleanup? }

  /** An end of the restore that has put the workload back. */
  predicate Restoring(a: Action) {
    (a.RComplete? && !a.lookupFailed) || (a.RFailCleanup? && a.clean)
  }

  /** The restore controller never writes again once the restore has ended. */
  lemma EndIsFinal(s: State, a: Action)
    requires Enabled(s, a) && Terminal(s.status.phase)
    ensures !IsRestore(a)
  {
  }

  lemma OthersDoNotScale(s: State, a: Action)
    requires Enabled(s, a) && !IsRestore(a)
    ensures Apply(s, a).workload.Some? ==>
              s.workload.Some? && Apply(s, a).workload.value.Desired() == s.workload.value.Desired()
  {
  }

  lemma EndKeepsWorkload(s: State, a: Action)
    requires Enabled(s, a) && IsEnd(a)
    ensures Terminal(Apply(s, a).status.phase)
    ensures Apply(s, a).workload == s.workload && Apply(s, a).source == s.source
  {
  }

  /** The count wanted when the restore ends is the count wanted ever after. */
  lemma {:induction false} EndFreezesCount(s0: State, acts: seq<Action>, i: nat, k: nat)
    requires Fresh(s0) && ValidRun(s0, acts) && i < k <= |acts| && IsEnd(acts[i])
    ensures Terminal(At(s0, acts, k).status.phase)
    ensures var w, v := At(s0, acts, i).workload, At(s0, acts, k).workload;
            v.Some? ==> w.Some? && v.value.Desired() == w.value.Desired()
    decreases k
  {
    var s, a := At(s0, acts, k - 1), acts[k - 1];
    AtStep(s0, acts, k - 1);
    if i == k - 1 {
      EndKeepsWorkload(s, a);
    } else {
      EndFreezesCount(s0, acts, i, k - 1);
      EndIsFinal(s, a);
      OthersDoNotScale(s, a);
      InvAt(s0, acts, k - 1);
      StepLater(s, a);
    }
  }

  /**
   Which ends keep the count: for ever after any end, a workload that still exists wants its
   original count exactly when the end did not come while it was scaled to zero, and the two
   restoring ends never come then.
   */
  lemma CountConserved(s0: State, acts: seq<Action>, i: nat, k: nat)
    requires Fresh(s0) && ValidRun(s0, acts) && i < k <= |acts|
    requires IsEnd(acts[i]) && At(s0, acts, k).workload.Some?
    ensures At(s0, acts, k).workload.value.Desired() == Born(s0) <==> Born(s0) == 0 || !Idle(At(s0, acts, i))
    ensures Restoring(acts[i]) ==> At(s0, acts, k).workload.value.Desired() == Born(s0)
  {
    EndFreezesCount(s0, acts, i, k);
    InvAt(s0, acts, i);
    AtStep(s0, acts, i);
  }

  /** A restore that completes without the tolerated lookup error has conserved the count. */
  lemma CompleteConserves(s0: State, acts: seq<Action>, k: nat)
    requires Fresh(s0) && ValidRun(s0, acts) && k <= |acts|
    requires At(s0, acts, k).status.phase.Complete?
    requires forall i | 0 <= i < |acts| :: !(acts[i].RComplete? && acts[i].lookupFailed)
    ensures var s := At(s0, acts, k);
            s.workload.Some? ==> s.workload.value.Desired() == Born(s0)
  {
    var i := CompletedBy(s0, acts, k);
    if At(s0, acts, k).workload.Some? {
      CountConserved(s0, acts, i, k);
    }
  }

  lemma CompletingWrite(s: State, a: Action)
    requires Enabled(s, a) && IsStatusWrite(a) && Apply(s, a).status.phase.Complete?
    ensures a.RComplete?
  {
  }

  lemma StatusUntouched(s: State, a: Action)
    requires Enabled(s, a) && !IsStatusWrite(a)
    ensures Apply(s, a).status == s.status
  {
  }

  lemma CompleteStep(s: State, a: Action)
    requires Enabled(s, a) && Apply(s, a).status.phase.Complete?
    ensures s.status.phase.Complete? || a.RComplete?
  {
    if IsStatusWrite(a) {
      CompletingWrite(s, a);
    } else {
      StatusUntouched(s, a);
    }
  }

  /** Complete is reached only through an RComplete action. */
  lemma {:induction false} CompletedBy(s0: State, acts: seq<Action>, k: nat) returns (i: nat)
    requires Fresh(s0) && ValidRun(s0, acts) && k <= |acts|
    requires At(s0, acts, k).status.phase.Complete?
    ensures i < k && acts[i].RComplete?
    decreases k
  {
    AtStart(s0, acts);
    AtStep(s0, acts, k - 1);
    CompleteStep(At(s0, acts, k - 1), acts[k - 1]);
    if At(s0, acts, k - 1).status.phase.Complete? {
      i := CompletedBy(s0, acts, k - 1);
    } else {
      i := k - 1;
    }
  }

  /**
   The ends that lose the count. While a workload that wanted replicas is scaled to zero no
   restoring end is possible, but a plain failure always is, Complete is as soon as the gate has
   been passed and the lookup fails, and a clean-up that was not complete is once the Jobs have failed.
   */
  lemma CountLost(s0: State, acts: seq<Action>, e: Action)
    requires Fresh(s0) && ValidRun(s0, acts) && Born(s0) > 0 && IsEnd(e)
    requires var s := Final(s0, acts); Idle(s) && !Terminal(s.status.phase)
    ensures ValidRun(s0, acts + [e]) <==>
              match e
              case RComplete(lookupFailed, _) => lookupFailed && GatePassed(Final(s0, acts))
              case RFailCleanup(clean, _) => !clean && Abandoned(Final(s0, acts))
              case _ => true
    ensures ValidRun(s0, acts + [e]) ==>
              var t := Final(s0, acts + [e]);
              Terminal(t.status.phase) && t.workload.Some? && t.workload.value.Desired() == 0
  {
    InvFinal(s0, acts);
    assert (acts + [e])[..|acts|] == acts;
  }

  // ---- What each end leaves of the pause ----

  predicate SamePause(before: Option<Source>, after: Option<Source>) {
    after.Some? ==> before.Some? && after.value.pause == before.value.pause
  }

  lemma OthersDoNotPause(s: State, a: Action)
    requires Enabled(s, a) && !IsRestore(a)
    ensures SamePause(s.source, Apply(s, a).source)
  {
  }

  lemma {:induction false} EndFreezesPause(s0: State, acts: seq<Action>, i: nat, k: nat)
    requires Fresh(s0) && ValidRun(s0, acts) && i < k <= |acts| && IsEnd(acts[i])
    ensures SamePause(At(s0, acts, i).source, At(s0, acts, k).source)
    decreases k
  {
    AtStep(s0, acts, k - 1);
    if i < k - 1 {
      EndFreezesPause(s0, acts, i, k - 1);
      EndFreezesCount(s0, acts, i, k - 1);
      EndIsFinal(At(s0, acts, k - 1), acts[k - 1]);
      OthersDoNotPause(At(s0, acts, k - 1), acts[k - 1]);
    } else {
      EndKeepsWorkload(At(s0, acts, i), acts[i]);
    }
  }

  /**
   For ever after the restore has ended, a source that still exists is unpaused if the end was
   Complete or a clean-up whose calls succeeded, and paused if it was a plain failure between
   Pausing and ScalingUp of a restore that was not being abandoned: nobody resumes it.
   */
  lemma PauseAfterEnd(s0: State, acts: seq<Action>, i: nat, k: nat)
    requires Fresh(s0) && ValidRun(s0, acts) && i < k <= |acts|
    requires IsEnd(acts[i]) && At(s0, acts, k).source.Some?
    ensures acts[i].RComplete? || Restoring(acts[i]) ==> !At(s0, acts, k).source.value.pause
    ensures acts[i].RFail? && (At(s0, acts, i).status.phase.Pausing? || Holding(At(s0, acts, i))) ==>
              At(s0, acts, k).source.value.pause
  {
    EndFreezesPause(s0, acts, i, k);
    InvAt(s0, acts, i);
    AtStep(s0, acts, i);
  }

  // ---- Validation before the application restarts ----

  /** From the creation of the restore Job until validation has succeeded the workload is down. */
  predicate HeldBack(s: State) {
    s.restoreJob.Some? && !Done(s.validateJob, Succeeded) ==> Down(s)
  }

  lemma HeldBackStep(n0: nat, s: State, a: Action)
    requires Inv(n0, s) && HeldBack(s) && Enabled(s, a) && !a.RCleanupScaleUp?
    ensures HeldBack(Apply(s, a))
  {
    if IsJob(a) {
      ReportDecides(s, a);
    }
  }

  lemma {:induction false} HeldBackAt(s0: State, acts: seq<Action>, k: nat)
    requires Fresh(s0) && ValidRun(s0, acts) && k <= |acts|
    requires forall h | 0 <= h < k :: !acts[h].RCleanupScaleUp?
    ensures HeldBack(At(s0, acts, k))
    decreases k
  {
    if k == 0 {
      AtStart(s0, acts);
    } else {
      HeldBackAt(s0, acts, k - 1);
      InvAt(s0, acts, k - 1);
      AtStep(s0, acts, k - 1);
      HeldBackStep(Born(s0), At(s0, acts, k - 1), acts[k - 1]);
    }
  }

  /**
   No pod is admitted over what the restore Job has touched before validation has succeeded,
   unless a clean-up has scaled the workload up.
   */
  lemma ValidatedFirst(s0: State, acts: seq<Action>, k: nat)
    requires Fresh(s0) && ValidRun(s0, acts) && k < |acts| && acts[k].PodUp?
    requires At(s0, acts, k).restoreJob.Some?
    ensures Done(At(s0, acts, k).validateJob, Succeeded) || exists h | 0 <= h < k :: acts[h].RCleanupScaleUp?
  {
    if forall h | 0 <= h < k :: !acts[h].RCleanupScaleUp? {
      HeldBackAt(s0, acts, k);
      AtStep(s0, acts, k);
    }
  }

  // ---- A restore whose ConfigMap name is taken ----

  /** It never gets past ScalingDown, and has no Job. */
  lemma TakenNeverRuns(s0: State, acts: seq<Action>, k: nat)
    requires Fresh(s0) && s0.taken && ValidRun(s0, acts) && k <= |acts|
    ensures var s := At(s0, acts, k);
            s.taken && s.restoreJob.None? && s.validateJob.None? &&
            (Early(s.status.phase) || s.status.phase in {Pausing, ScalingDown, Failed})
  {
    NameKept(s0, acts, k);
    InvAt(s0, acts, k);
  }

  // ---- The scale-up gate ----

  /** What holds where the success path raises the replica count. */
  predicate JobsOver(s: State) {
    Done(s.restoreJob, Succeeded) && Done(s.validateJob, Succeeded) && Down(s)
  }

  /** The ConfigMap lets a sidecar that starts now replicate. */
  predicate Replicating(s: State) {
    s.source.Some? ==> s.config.Some? && s.config.value.Text() != PAUSED_CONFIG
  }

  predicate SkipSet(s: State) { s.source.Some? ==> s.source.value.skip }

  lemma ScaleUpGate(s0: State, acts: seq<Action>, k: nat)
    requires Fresh(s0) && ValidRun(s0, acts) && k < |acts| && acts[k].RScaleUp?
    ensures JobsOver(At(s0, acts, k)) && acts[k].n == Born(s0)
    ensures At(s0, acts, k).source.Some? ==> !At(s0, acts, k).source.value.pause
    ensures Settled(s0) ==> Replicating(At(s0, acts, k))
    ensures !At(s0, acts, k).lateClear ==> SkipSet(At(s0, acts, k))
  {
    InvAt(s0, acts, k);
    AtStep(s0, acts, k);
    if Settled(s0) {
      PauseAt(s0, acts, k);
    }
    var s := At(s0, acts, k);
    if s.config.Some? {
      PausedTextIsPaused(s.config.value);
    }
  }

  /** A reconcile that has seen the annotation and may still come to remove it. */
  predicate Eager(p: Pass) { p.clearing || (p.skip && p.spec.backupEnabled) }

  /** Some pod of the restore's workload may come to run a sidecar before the scale-down. */
  predicate Injectable(s: State) {
    || Born(s) == 1
    || (s.workload.Some? &&
        (s.workload.value.annotated || exists p | p in s.workload.value.pods :: !p.sidecar.NotInjected?))
  }

  /**
   Someone may hold on to a sight of skip until the scale-up: the annotation is set and a sidecar
   may be seen, or a reconcile in flight has seen it, has seen or may see a sidecar, and leaves,
   or finds, the ConfigMap paused.
   */
  predicate SkipPending(s: State) {
    && s.source.Some?
    && (|| (s.source.value.skip && Injectable(s))
        || (&& s.pass.Some? && (s.pass.value.clearing || (Eager(s.pass.value) && Injectable(s)))
            && (s.config == Some(Paused) || (Unwritten(s) && s.pass.value.pause))))
  }

  /** A reconcile in flight that keeps the ConfigMap from ever reading paused. */
  predicate HoldsOff(s: State)
    requires s.pass.Some?
  {
    && (Early(s.status.phase) || s.status.phase.Pausing?) && !s.torn
    && s.config != Some(Paused) && (Unwritten(s) ==> !s.pass.value.pause)
  }

  predicate BeforeScaleUp(p: Phase) { p in {Unset, Pending, Pausing, ScalingDown, Running, Validating} }

  /** Nobody has removed the annotation before the scale-up, nor is about to. */
  predicate SkipHolds(s: State) {
    s.source.Some? ==>
      !s.lateClear && (s.status.phase.ScalingUp? && Idle(s) && s.pass.Some? ==> !s.pass.value.clearing)
  }

  /** Kept from a start without skip. */
  predicate InvSkip(s: State) {
    && SkipHolds(s)
    && (s.source.Some? && BeforeScaleUp(s.status.phase) ==>
          !s.source.value.skip && (s.pass.Some? && Eager(s.pass.value) ==> HoldsOff(s)))
  }

  lemma SkipKeptByStatusWrite(s: State, a: Action)
    requires InvSkip(s) && Enabled(s, a) && IsStatusWrite(a)
    ensures InvSkip(Apply(s, a))
  {
    StatusWriteFrame(s, a);
  }

  lemma SkipKeptByObjectWrite(s: State, a: Action)
    requires InvSkip(s) && Enabled(s, a) && IsObjectWrite(a)
    ensures InvSkip(Apply(s, a))
  {
  }

  lemma SkipKeptByOthers(n0: nat, s: State, a: Action)
    requires InvCount(n0, s) && InvSkip(s) && Enabled(s, a) && !IsRestore(a)
    ensures InvSkip(Apply(s, a))
  {
  }

  lemma InvSkipKept(n0: nat, s: State, a: Action)
    requires InvCount(n0, s) && InvSkip(s) && Enabled(s, a)
    ensures InvSkip(Apply(s, a))
  {
    if IsStatusWrite(a) {
      SkipKeptByStatusWrite(s, a);
    } else if IsObjectWrite(a) {
      SkipKeptByObjectWrite(s, a);
    } else {
      SkipKeptByOthers(n0, s, a);
    }
  }

  /** No pod has a sidecar, and none will while the workload wants pods. */
  predicate Bare(w: Workload) {
    (forall p | p in w.pods :: p.sidecar.NotInjected?) && (w.Desired() > 0 ==> !w.annotated)
  }

  /** Kept from a start in which no sidecar can be seen: the template is annotated at zero at the earliest. */
  predicate InvBlind(s: State) {
    && SkipHolds(s)
    && (s.source.Some? && BeforeScaleUp(s.status.phase) && !Abandoned(s) ==>
          && (s.pass.Some? && s.pass.value.clearing ==> HoldsOff(s))
          && (s.workload.Some? ==> Bare(s.workload.value)))
  }

  lemma BlindKeptByStatusWrite(s: State, a: Action)
    requires InvBlind(s) && Enabled(s, a) && IsStatusWrite(a)
    ensures InvBlind(Apply(s, a))
  {
    StatusWriteFrame(s, a);
  }

  lemma BlindKeptByObjectWrite(s: State, a: Action)
    requires InvBlind(s) && Enabled(s, a) && IsObjectWrite(a)
    ensures InvBlind(Apply(s, a))
  {
  }

  lemma BlindKeptByReplica(n0: nat, s: State, a: Action)
    requires n0 != 1 && InvCount(n0, s) && InvBlind(s) && Enabled(s, a) && IsReplica(a)
    ensures InvBlind(Apply(s, a))
  {
  }

  lemma BlindKeptByOthers(n0: nat, s: State, a: Action)
    requires InvCount(n0, s) && InvBlind(s) && Enabled(s, a) && !IsRestore(a) && !IsReplica(a)
    ensures InvBlind(Apply(s, a))
  {
    if IsJob(a) {
      ReportDecides(s, a);
    }
  }

  lemma InvBlindKept(n0: nat, s: State, a: Action)
    requires n0 != 1 && InvCount(n0, s) && InvBlind(s) && Enabled(s, a)
    ensures InvBlind(Apply(s, a))
  {
    if IsStatusWrite(a) {
      BlindKeptByStatusWrite(s, a);
    } else if IsObjectWrite(a) {
      BlindKeptByObjectWrite(s, a);
    } else if IsReplica(a) {
      BlindKeptByReplica(n0, s, a);
    } else {
      BlindKeptByOthers(n0, s, a);
    }
  }

  lemma {:induction false} NoLateClear(s0: State, acts: seq<Action>, k: nat)
    requires Fresh(s0) && !SkipPending(s0) && ValidRun(s0, acts) && k <= |acts|
    ensures SkipHolds(At(s0, acts, k))
    ensures if Injectable(s0) then InvSkip(At(s0, acts, k)) else InvBlind(At(s0, acts, k))
    decreases k
  {
    if k == 0 {
      AtStart(s0, acts);
    } else {
      NoLateClear(s0, acts, k - 1);
      InvAt(s0, acts, k - 1);
      AtStep(s0, acts, k - 1);
      if Injectable(s0) {
        InvSkipKept(Born(s0), At(s0, acts, k - 1), acts[k - 1]);
      } else {
        InvBlindKept(Born(s0), At(s0, acts, k - 1), acts[k - 1]);
      }
    }
  }

  /** Every removal of skip directly follows the health check that justified it. */
  predicate PromptClears(acts: seq<Action>) {
    forall i | 0 <= i < |acts| && acts[i].ReplicaClear? :: i > 0 && acts[i - 1].ReplicaObserve?
  }

  lemma LateClearStep(s: State, a: Action)
    requires Enabled(s, a) && Apply(s, a).lateClear && !s.lateClear
    ensures a.ReplicaClear? && s.status.phase.ScalingUp? && Idle(s)
  {
  }

  /** Before the scale-up there is nothing healthy to observe. */
  lemma ObserveNotIdle(n0: nat, s: State)
    requires InvCount(n0, s) && Enabled(s, ReplicaObserve) && s.status.phase.ScalingUp?
    ensures !Idle(Apply(s, ReplicaObserve))
  {
  }

  lemma {:induction false} PromptNoLateClear(s0: State, acts: seq<Action>, k: nat)
    requires Fresh(s0) && PromptClears(acts) && ValidRun(s0, acts) && k <= |acts|
    ensures !At(s0, acts, k).lateClear
    decreases k
  {
    if k == 0 {
      AtStart(s0, acts);
    } else {
      PromptNoLateClear(s0, acts, k - 1);
      AtStep(s0, acts, k - 1);
      if At(s0, acts, k).lateClear {
        LateClearStep(At(s0, acts, k - 1), acts[k - 1]);
        InvAt(s0, acts, k - 2);
        AtStep(s0, acts, k - 2);
        ObserveNotIdle(Born(s0), At(s0, acts, k - 2));
      }
    }
  }

  /** No sight of skip at the start, or health check and removal never torn apart. */
  predicate SkipSafe(s0: State, acts: seq<Action>) {
    !SkipPending(s0) || PromptClears(acts)
  }

  /** The success path then raises the count only with skip-archive-check set. */
  lemma ScaleUpGateWithSkip(s0: State, acts: seq<Action>, k: nat)
    requires Fresh(s0) && ValidRun(s0, acts) && k < |acts| && acts[k].RScaleUp?
    requires SkipSafe(s0, acts)
    ensures SkipSet(At(s0, acts, k))
  {
    ScaleUpGate(s0, acts, k);
    if PromptClears(acts) {
      PromptNoLateClear(s0, acts, k);
    } else {
      NoLateClear(s0, acts, k);
    }
  }

  // ---- After the scale-up: no guard before a healthy sidecar ----

  /** A reconcile has seen a healthy sidecar strictly between i and j. */
  predicate Observed(acts: seq<Action>, i: nat, j: nat)
    requires j <= |acts|
  {
    exists h | i < h < j :: acts[h].ReplicaObserve?
  }

  /** Skip is there, and no removal is under way that a prompt reconcile would not still have to justify. */
  predicate SkipKept(s: State, prompt: bool) {
    s.source.Some? ==> s.source.value.skip && (prompt || (s.pass.Some? ==> !s.pass.value.clearing))
  }

  lemma SkipKeptByRestore(s: State, a: Action, prompt: bool)
    requires Enabled(s, a) && SkipKept(s, prompt) && IsRestore(a)
    ensures SkipKept(Apply(s, a), prompt)
  {
  }

  lemma SkipKeptUnlessSeen(s: State, a: Action, prompt: bool)
    requires Enabled(s, a) && SkipKept(s, prompt) && !IsRestore(a)
    requires !a.ReplicaObserve? && (prompt ==> !a.ReplicaClear?)
    ensures SkipKept(Apply(s, a), prompt)
  {
  }

  /** From the scale-up until a reconcile sees a healthy sidecar, skip stays set. */
  lemma {:induction false} SkipUntilHealthy(s0: State, acts: seq<Action>, i: nat, j: nat)
    requires Fresh(s0) && ValidRun(s0, acts) && SkipSafe(s0, acts) && i < j <= |acts|
    requires acts[i].RScaleUp? && !Observed(acts, i, j)
    ensures SkipKept(At(s0, acts, j), PromptClears(acts))
    decreases j
  {
    if i == j - 1 {
      ScaleUpGateWithSkip(s0, acts, i);
      InvAt(s0, acts, i);
      if !PromptClears(acts) {
        NoLateClear(s0, acts, i);
      }
    } else {
      SkipUntilHealthy(s0, acts, i, j - 1);
    }
    AtStep(s0, acts, j - 1);
    if IsRestore(acts[j - 1]) {
      SkipKeptByRestore(At(s0, acts, j - 1), acts[j - 1], PromptClears(acts));
    } else {
      SkipKeptUnlessSeen(At(s0, acts, j - 1), acts[j - 1], PromptClears(acts));
    }
  }

  predicate HealthyNow(s: State) { s.workload.Some? && Healthy(s.workload.value.pods) }

  predicate NewestGuarded(s: State) {
    s.workload.Some? && s.workload.value.pods != [] && s.workload.value.pods[|s.workload.value.pods| - 1].guarded
  }

  /** From the scale-up on, skip is absent only after a sight of a healthy sidecar since then. */
  lemma SkipGoneAfterHealth(s0: State, acts: seq<Action>, i: nat, j: nat)
    requires Fresh(s0) && ValidRun(s0, acts) && SkipSafe(s0, acts) && i < j <= |acts| && acts[i].RScaleUp?
    ensures !SkipSet(At(s0, acts, j)) ==> exists h | i < h < j :: HealthyNow(At(s0, acts, h))
  {
    if Observed(acts, i, j) {
      var h :| i < h < j && acts[h].ReplicaObserve?;
      AtStep(s0, acts, h);
    } else {
      SkipUntilHealthy(s0, acts, i, j);
    }
  }

  /** So a pod admitted with archive-check comes after such a sight. */
  lemma GuardedOnlyAfterHealth(s0: State, acts: seq<Action>, i: nat, j: nat)
    requires Fresh(s0) && ValidRun(s0, acts) && SkipSafe(s0, acts) && i < j < |acts|
    requires acts[i].RScaleUp? && acts[j].PodUp?
    ensures NewestGuarded(At(s0, acts, j + 1)) ==> exists h | i < h < j :: HealthyNow(At(s0, acts, h))
  {
    AtStep(s0, acts, j);
    SkipGoneAfterHealth(s0, acts, i, j);
  }

  /** The workload is back at the wanted count, and no write of the restore can change that. */
  predicate Raised(n0: nat, s: State) {
    && (s.status.phase.ScalingUp? || Terminal(s.status.phase))
    && (s.workload.Some? ==> s.workload.value.Desired() == n0)
  }

  lemma RaisedByStatusWrite(n0: nat, s: State, a: Action)
    requires Raised(n0, s) && Enabled(s, a) && IsStatusWrite(a)
    ensures Raised(n0, Apply(s, a))
  {
  }

  lemma RaisedByObjectWrite(n0: nat, s: State, a: Action)
    requires InvCount(n0, s) && Raised(n0, s) && Enabled(s, a) && IsObjectWrite(a)
    ensures Raised(n0, Apply(s, a))
  {
  }

  lemma RaisedByOthers(n0: nat, s: State, a: Action)
    requires Raised(n0, s) && Enabled(s, a) && !IsRestore(a)
    ensures Raised(n0, Apply(s, a))
  {
    OthersDoNotScale(s, a);
  }

  lemma RaisedStep(n0: nat, s: State, a: Action)
    requires Inv(n0, s) && Raised(n0, s) && Enabled(s, a)
    ensures Raised(n0, Apply(s, a))
  {
    if IsStatusWrite(a) {
      RaisedByStatusWrite(n0, s, a);
    } else if IsObjectWrite(a) {
      RaisedByObjectWrite(n0, s, a);
    } else {
      RaisedByOthers(n0, s, a);
    }
  }

  lemma RaisedFirst(s: State, a: Action)
    requires Enabled(s, a) && a.RScaleUp?
    ensures Raised(a.n, Apply(s, a))
  {
  }

  lemma {:induction false} StaysRaised(s0: State, acts: seq<Action>, i: nat, j: nat)
    requires Fresh(s0) && ValidRun(s0, acts) && i < j <= |acts| && acts[i].RScaleUp?
    ensures Raised(Born(s0), At(s0, acts, j))
    decreases j
  {
    InvAt(s0, acts, j - 1);
    AtStep(s0, acts, j - 1);
    if i < j - 1 {
      StaysRaised(s0, acts, i, j - 1);
      RaisedStep(Born(s0), At(s0, acts, j - 1), acts[j - 1]);
    } else {
      ScaleUpGate(s0, acts, i);
      RaisedFirst(At(s0, acts, i), acts[i]);
    }
  }

  /**
   A workload that wants several pods is never found healthy, so after its restore skip stays set
   for ever and no pod is guarded again.
   */
  lemma SkipStaysForSeveral(s0: State, acts: seq<Action>, i: nat, j: nat)
    requires Fresh(s0) && ValidRun(s0, acts) && SkipSafe(s0, acts) && i < j <= |acts| && acts[i].RScaleUp?
    requires Born(s0) > 1
    ensures SkipSet(At(s0, acts, j))
  {
    forall h | i < h < j
      ensures !acts[h].ReplicaObserve?
    {
      AtStep(s0, acts, h);
      StaysRaised(s0, acts, i, h);
    }
    SkipUntilHealthy(s0, acts, i, j);
  }

  lemma NoPodStep(s: State, a: Action)
    requires Enabled(s, a) && !a.PodUp? && (s.workload.Some? ==> s.workload.value.pods == [])
    ensures Apply(s, a).workload.Some? ==> Apply(s, a).workload.value.pods == []
  {
  }

  lemma {:induction false} NoPodYet(s0: State, acts: seq<Action>, i: nat, j: nat)
    requires Fresh(s0) && ValidRun(s0, acts) && i <= j <= |acts| && i < |acts| && acts[i].RScaleUp?
    requires forall h | i < h < j :: !acts[h].PodUp?
    ensures At(s0, acts, j).workload.Some? ==> At(s0, acts, j).workload.value.pods == []
    decreases j
  {
    if i == j {
      ScaleUpGate(s0, acts, i);
    } else {
      NoPodYet(s0, acts, i, j - 1);
      AtStep(s0, acts, j - 1);
      NoPodStep(At(s0, acts, j - 1), acts[j - 1]);
    }
  }

  /** The first pod admitted after the scale-up carries no archive-check container. */
  lemma FirstPodUnguarded(s0: State, acts: seq<Action>, i: nat, j: nat)
    requires Fresh(s0) && ValidRun(s0, acts) && SkipSafe(s0, acts) && i < j < |acts|
    requires acts[i].RScaleUp? && acts[j].PodUp? && forall h | i < h < j :: !acts[h].PodUp?
    ensures var w := At(s0, acts, j + 1).workload;
            w.Some? && |w.value.pods| == 1 && !w.value.pods[0].guarded
  {
    forall h | i <= h <= j
      ensures At(s0, acts, h).workload.Some? ==> At(s0, acts, h).workload.value.pods == []
    {
      NoPodYet(s0, acts, i, h);
    }
    AtStep(s0, acts, j);
    GuardedOnlyAfterHealth(s0, acts, i, j);
  }

  // ---- The skip annotation does not leak ----

  predicate NoClear(acts: seq<Action>, i: nat, j: nat)
    requires i <= j <= |acts|
  {
    forall h | i <= h < j :: !acts[h].ReplicaClear?
  }

  lemma SkipStep(s: State, a: Action)
    requires Enabled(s, a) && !IsRestore(a) && Apply(s, a).source.Some?
    ensures s.source.Some?
    ensures Apply(s, a).source.value.skip <==> s.source.value.skip && !a.ReplicaClear?
  {
  }

  lemma SkipAtStep(s0: State, acts: seq<Action>, k: nat)
    requires ValidRun(s0, acts) && k < |acts|
    requires Terminal(At(s0, acts, k).status.phase) && At(s0, acts, k + 1).source.Some?
    ensures At(s0, acts, k).source.Some?
    ensures At(s0, acts, k + 1).source.value.skip <==> At(s0, acts, k).source.value.skip && !acts[k].ReplicaClear?
  {
    AtStep(s0, acts, k);
    EndIsFinal(At(s0, acts, k), acts[k]);
    SkipStep(At(s0, acts, k), acts[k]);
  }

  /**
   From Complete on, the annotation is set exactly as long as it was set then and no replica
   reconcile has removed it: nobody sets it again.
   */
  lemma {:induction false} SkipAfterComplete(s0: State, acts: seq<Action>, i: nat, j: nat)
    requires Fresh(s0) && ValidRun(s0, acts) && i <= j <= |acts|
    requires At(s0, acts, i).status.phase.Complete? && At(s0, acts, j).source.Some?
    ensures At(s0, acts, i).source.Some?
    ensures At(s0, acts, j).source.value.skip <==>
              At(s0, acts, i).source.value.skip && NoClear(acts, i, j)
    decreases j
  {
    if i < j {
      StatusHistory(s0, acts, i, j - 1);
      SkipAtStep(s0, acts, j - 1);
      SkipAfterComplete(s0, acts, i, j - 1);
      assert NoClear(acts, i, j) <==> NoClear(acts, i, j - 1) && !acts[j - 1].ReplicaClear?;
    }
  }

  /** Nothing in between ends the reconcile that is in flight. */
  predicate SamePass(acts: seq<Action>, h: nat, k: nat)
    requires k <= |acts|
  {
    forall g | h <= g < k :: !acts[g].ReplicaRead? && !acts[g].ReplicaEnd? && !acts[g].ReplicaClear?
  }

  predicate Clearing(s: State) { s.pass.Some? && s.pass.value.clearing }

  lemma ClearingStep(s: State, a: Action)
    requires Enabled(s, a) && Clearing(Apply(s, a))
    ensures !a.ReplicaRead? && !a.ReplicaEnd? && !a.ReplicaClear?
    ensures Clearing(s) || (a.ReplicaObserve? && HealthyNow(s))
  {
  }

  /** Step h of the run is this reconcile's sight of a healthy sidecar. */
  ghost predicate SawHealth(s0: State, acts: seq<Action>, h: nat, k: nat)
    requires ValidRun(s0, acts) && k <= |acts|
  {
    h < k && acts[h].ReplicaObserve? && SamePass(acts, h, k) && HealthyNow(At(s0, acts, h))
  }

  /** The reconcile in flight was about to remove skip when the run started. */
  predicate InheritedClear(s0: State, acts: seq<Action>, k: nat)
    requires k <= |acts|
  {
    Clearing(s0) && SamePass(acts, 0, k)
  }

  lemma PassGoesOn(acts: seq<Action>, h: nat, k: nat)
    requires k < |acts| && !acts[k].ReplicaRead? && !acts[k].ReplicaEnd? && !acts[k].ReplicaClear?
    ensures SamePass(acts, h, k) ==> SamePass(acts, h, k + 1)
  {
  }

  lemma ClearingAtStep(s0: State, acts: seq<Action>, k: nat)
    requires ValidRun(s0, acts) && k < |acts| && Clearing(At(s0, acts, k + 1))
    ensures !acts[k].ReplicaRead? && !acts[k].ReplicaEnd? && !acts[k].ReplicaClear?
    ensures Clearing(At(s0, acts, k)) || (acts[k].ReplicaObserve? && HealthyNow(At(s0, acts, k)))
  {
    AtStep(s0, acts, k);
    ClearingStep(At(s0, acts, k), acts[k]);
  }

  lemma {:induction false} ClearingSawHealth(s0: State, acts: seq<Action>, k: nat) returns (h: nat)
    requires ValidRun(s0, acts) && k <= |acts|
    requires Clearing(At(s0, acts, k))
    ensures SawHealth(s0, acts, h, k) || InheritedClear(s0, acts, k)
    decreases k
  {
    h := k;
    if k == 0 {
      AtStart(s0, acts);
    } else {
      ClearingAtStep(s0, acts, k - 1);
      if Clearing(At(s0, acts, k - 1)) {
        h := ClearingSawHealth(s0, acts, k - 1);
        PassGoesOn(acts, h, k - 1);
        PassGoesOn(acts, 0, k - 1);
      } else {
        h := k - 1;
      }
    }
  }

  /**
   Skip is removed only by a reconcile that has itself seen a healthy sidecar, in this run or, if
   it has been in flight since the start, before it.
   */
  lemma ClearSawHealth(s0: State, acts: seq<Action>, k: nat) returns (h: nat)
    requires ValidRun(s0, acts) && k < |acts| && acts[k].ReplicaClear?
    ensures SawHealth(s0, acts, h, k) || InheritedClear(s0, acts, k)
  {
    AtStep(s0, acts, k);
    h := ClearingSawHealth(s0, acts, k);
  }

  /** After the first removal following Complete, every pod admitted with backup on and auto-restore off is guarded. */
  lemma GuardBackAfterClear(s0: State, acts: seq<Action>, i: nat, h: nat, j: nat)
    requires Fresh(s0) && ValidRun(s0, acts) && i <= h < j < |acts|
    requires At(s0, acts, i).status.phase.Complete? && acts[h].ReplicaClear? && acts[j].PodUp?
    requires var src := At(s0, acts, j).source;
             src.Some? && src.value.spec.backupEnabled && !src.value.spec.autoRestore
    requires At(s0, acts, j).workload.Some? ==> At(s0, acts, j).workload.value.annotated
    ensures NewestGuarded(At(s0, acts, j + 1))
  {
    SkipAfterComplete(s0, acts, i, j);
    AtStep(s0, acts, j);
  }
}

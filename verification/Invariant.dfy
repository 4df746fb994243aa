/**
 One inductive invariant of the restore protocol, over every interleaving of the restore
 controller's writes with the replica controller, the workload and Job controllers, the
 kubelet and users.
 */
module Invariant {
  import opened Wrappers
  import opened LitestreamConfig
  import opened Cluster

  /** The replica count the workload wants before the restore touches it. */
  function Born(s0: State): nat {
    if s0.workload.Some? then s0.workload.value.Desired() else 0
  }

  /** A replica reconcile in flight has read the annotation and not yet written the ConfigMap. */
  predicate Unwritten(s: State) { s.pass.Some? && !s.pass.value.wrote }

  /** Replication is paused in the ConfigMap, and no reconcile in flight will write anything else. */
  predicate Quiet(s: State) {
    s.source.Some? ==>
      && s.source.value.pause
      && s.config == Some(Paused)
      && (Unwritten(s) ==> s.pass.value.pause)
  }

  /**
   The replica controller is not still catching up with a removal of the pause annotation: the
   ConfigMap is paused only because the annotation is set, and no reconcile in flight is about to
   write the contrary of a paused ConfigMap or a pause that is no longer wanted.
   */
  predicate Settled(s: State) {
    s.source.Some? ==>
      && (s.config == Some(Paused) ==> Quiet(s))
      && (Unwritten(s) && s.pass.value.pause ==> s.source.value.pause)
  }

  /** A restore that has just been created: no status, no ConfigMap of its own, no Jobs of its names. */
  predicate Fresh(s: State) {
    && Early(s.status.phase)
    && s.status == Status(s.status.phase, "", None, None, None)
    && s.restoreJob.None? && s.validateJob.None?
    && s.restoreConfig.None?
    && !s.lateClear && !s.torn
  }

  // ---- The invariant, in three parts ----

  /** A restore under way keeps replication paused until it is abandoned or scales up. */
  predicate Holding(s: State) {
    s.status.phase.ScalingDown? || (s.status.phase in {Running, Validating} && !Abandoned(s))
  }

  predicate InvStatus(s: State) {
    var st := s.status;
    && (Early(st.phase) ==> st.original.None? && st.start.None?)
    && (Early(st.phase) || st.phase in {Pausing, ScalingDown} ==> st.jobName == "")
    && ((st.phase.Pausing? || Holding(s)) && s.source.Some? ==> s.source.value.pause)
    && (!Early(st.phase) ==> st.start.Some?)
    && (!Early(st.phase) && !st.phase.Failed? ==> st.original.Some?)
    && (st.completion.Some? <==> Terminal(st.phase))
    && (st.phase in {Running, Validating, ScalingUp, Complete} ==> st.jobName == RestoreJobName(s))
  }

  /** The desired count is the original one or zero; it is zero only after the original was recorded. */
  predicate InvCount(n0: nat, s: State) {
    s.workload.Some? ==>
      var w, st := s.workload.value, s.status;
      && w.Desired() in {0, n0}
      && (st.original.Some? ==> st.original.value == n0)
      && (st.original.None? ==> w.Desired() == n0)
      && (st.phase.ScalingDown? ==> w.replicas == Some(0))
      && (st.phase in {Running, Validating, ScalingUp} ==> w.replicas.Some? && (w.Desired() == 0 ==> w.pods == []))
  }

  predicate InvJobs(s: State) {
    var p := s.status.phase;
    && (s.restoreConfig.Some? ==> s.restoreConfig.value.Full? && !s.taken)
    && (p in {Running, Validating, ScalingUp, Complete} ==> s.restoreConfig.Some?)
    && (s.restoreJob.Some? ==> s.restoreConfig.Some? && !Early(p) && !p.Pausing?)
    && (s.validateJob.Some? ==> p in {Validating, ScalingUp, Complete, Failed} && Done(s.restoreJob, Succeeded))
    && (p in {Validating, ScalingUp, Complete} ==> Done(s.restoreJob, Succeeded))
    && (p in {ScalingUp, Complete} ==> Done(s.validateJob, Succeeded))
    && (Active(s.restoreJob) || Active(s.validateJob) ==> Down(s))
    && (p in {Running, Validating} && !Abandoned(s) ==> Down(s))
  }

  predicate Inv(n0: nat, s: State) {
    InvStatus(s) && InvCount(n0, s) && InvJobs(s)
  }

  lemma FreshInv(s: State)
    requires Fresh(s)
    ensures Inv(Born(s), s)
  {
  }

  // ---- Every action keeps it ----

  lemma StatusWriteFrame(s: State, a: Action)
    requires Enabled(s, a) && IsStatusWrite(a)
    ensures Apply(s, a) == s.(status := StatusAfter(s, a))
  {
  }

  lemma KeptByStatusWrite(n0: nat, s: State, a: Action)
    requires Inv(n0, s) && Enabled(s, a) && IsStatusWrite(a)
    ensures Inv(n0, Apply(s, a))
  {
    StatusWriteFrame(s, a);
  }

  lemma KeptByObjectWrite(n0: nat, s: State, a: Action)
    requires Inv(n0, s) && Enabled(s, a) && IsObjectWrite(a)
    ensures Inv(n0, Apply(s, a))
  {
  }

  lemma KeptByJobs(n0: nat, s: State, a: Action)
    requires Inv(n0, s) && Enabled(s, a) && IsJob(a)
    ensures Inv(n0, Apply(s, a))
  {
    ReportDecides(s, a);
  }

  /** A condition reported for an open Job decides it, or leaves it open. */
  lemma ReportDecides(s: State, a: Action)
    requires Enabled(s, a) && IsJob(a)
    ensures a.RestoreJobReport? ==> VerdictOf(s.restoreJob.value + [a.cond]) == VerdictOf([a.cond])
    ensures a.ValidateJobReport? ==> VerdictOf(s.validateJob.value + [a.cond]) == VerdictOf([a.cond])
  {
    if a.RestoreJobReport? {
      VerdictAppend(s.restoreJob.value, a.cond);
    }
    if a.ValidateJobReport? {
      VerdictAppend(s.validateJob.value, a.cond);
    }
  }

  lemma ReplicaFrame(s: State, a: Action)
    requires Enabled(s, a) && IsReplica(a)
    ensures var t := Apply(s, a);
            && t == s.(source := t.source, config := t.config, workload := t.workload, pass := t.pass,
                       lateClear := t.lateClear, torn := t.torn)
            && (t.source.Some? ==> s.source.Some? && t.source.value.pause == s.source.value.pause)
            && (t.workload.Some? ==>
                  && s.workload.Some? && t.workload.value.replicas == s.workload.value.replicas
                  && t.workload.value.pods == s.workload.value.pods)
  {
  }

  lemma KeptByReplica(n0: nat, s: State, a: Action)
    requires Inv(n0, s) && Enabled(s, a) && IsReplica(a)
    ensures Inv(n0, Apply(s, a))
  {
    ReplicaFrame(s, a);
  }

  lemma KeptByOthers(n0: nat, s: State, a: Action)
    requires Inv(n0, s) && Enabled(s, a) && !IsRestore(a) && !IsReplica(a) && !IsJob(a)
    ensures Inv(n0, Apply(s, a))
  {
  }

  lemma InvKept(n0: nat, s: State, a: Action)
    requires Inv(n0, s) && Enabled(s, a)
    ensures Inv(n0, Apply(s, a))
  {
    if IsStatusWrite(a) {
      KeptByStatusWrite(n0, s, a);
    } else if IsObjectWrite(a) {
      KeptByObjectWrite(n0, s, a);
    } else if IsJob(a) {
      KeptByJobs(n0, s, a);
    } else if IsReplica(a) {
      KeptByReplica(n0, s, a);
    } else {
      KeptByOthers(n0, s, a);
    }
  }

  /** The invariant holds at the end of every run, hence, prefixes being runs, all along it. */
  lemma {:induction false} InvFinal(s0: State, acts: seq<Action>)
    requires Fresh(s0) && ValidRun(s0, acts)
    ensures Inv(Born(s0), Final(s0, acts))
    decreases |acts|
  {
    if acts == [] {
      FreshInv(s0);
    } else {
      var n := |acts| - 1;
      InvFinal(s0, acts[..n]);
      InvKept(Born(s0), Final(s0, acts[..n]), acts[n]);
    }
  }

  lemma InvAt(s0: State, acts: seq<Action>, k: nat)
    requires Fresh(s0) && ValidRun(s0, acts) && k <= |acts|
    ensures Inv(Born(s0), At(s0, acts, k))
  {
    PrefixValid(s0, acts, k);
    InvFinal(s0, acts[..k]);
  }

  // ---- From a settled start: the annotation and the ConfigMap ----

  predicate InvPause(s: State) {
    var p := s.status.phase;
    && (Early(p) || p.Pausing? ==> Settled(s) && !s.torn)
    && (Holding(s) ==> Quiet(s) && !s.torn)
    && (Active(s.restoreJob) || Active(s.validateJob) ==> Quiet(s))
    && (p.ScalingUp? && s.source.Some? ==> Resuming(s))
  }

  /** During ScalingUp the ConfigMap turns full only after the annotation is gone, for good. */
  predicate Resuming(s: State)
    requires s.source.Some?
  {
    && !s.torn
    && (s.config.Some? && s.config.value.Full? ==>
          !s.source.value.pause && (Unwritten(s) ==> !s.pass.value.pause))
    && (Unwritten(s) && !s.pass.value.pause ==> !s.source.value.pause)
  }

  lemma PauseByStatusWrite(n0: nat, s: State, a: Action)
    requires Inv(n0, s) && InvPause(s) && Enabled(s, a) && IsStatusWrite(a)
    ensures InvPause(Apply(s, a))
  {
    StatusWriteFrame(s, a);
  }

  lemma PauseByObjectWrite(n0: nat, s: State, a: Action)
    requires Inv(n0, s) && InvPause(s) && Enabled(s, a) && IsObjectWrite(a)
    ensures InvPause(Apply(s, a))
  {
  }

  lemma PauseByReplica(s: State, a: Action)
    requires InvPause(s) && Enabled(s, a) && IsReplica(a)
    ensures InvPause(Apply(s, a))
  {
  }

  lemma PauseByJobs(s: State, a: Action)
    requires InvPause(s) && Enabled(s, a) && IsJob(a)
    ensures InvPause(Apply(s, a))
  {
    ReportDecides(s, a);
  }

  lemma PauseByOthers(s: State, a: Action)
    requires InvPause(s) && Enabled(s, a) && !IsRestore(a) && !IsReplica(a) && !IsJob(a)
    ensures InvPause(Apply(s, a))
  {
  }

  lemma PauseKept(n0: nat, s: State, a: Action)
    requires Inv(n0, s) && InvPause(s) && Enabled(s, a)
    ensures InvPause(Apply(s, a))
  {
    if IsStatusWrite(a) {
      PauseByStatusWrite(n0, s, a);
    } else if IsObjectWrite(a) {
      PauseByObjectWrite(n0, s, a);
    } else if IsReplica(a) {
      PauseByReplica(s, a);
    } else if IsJob(a) {
      PauseByJobs(s, a);
    } else {
      PauseByOthers(s, a);
    }
  }

  lemma {:induction false} PauseAt(s0: State, acts: seq<Action>, k: nat)
    requires Fresh(s0) && Settled(s0) && ValidRun(s0, acts) && k <= |acts|
    ensures InvPause(At(s0, acts, k))
    decreases k
  {
    if k == 0 {
      AtStart(s0, acts);
    } else {
      PauseAt(s0, acts, k - 1);
      InvAt(s0, acts, k - 1);
      AtStep(s0, acts, k - 1);
      PauseKept(Born(s0), At(s0, acts, k - 1), acts[k - 1]);
    }
  }
}

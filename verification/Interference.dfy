/**
 What everybody but the restore controller leaves alone. The guards of the restore controller's
 writes survive any amount of interference, so a check made earlier in a reconcile still stands
 when the write goes out.
 */
module Interference {
  import opened Wrappers
  import opened LitestreamConfig
  import opened Cluster

  predicate JobKept(j: Option<Job>, k: Option<Job>) {
    && (j.None? ==> k.None?)
    && (j.Some? && VerdictOf(j.value) != Open ==> k == j)
  }

  predicate WorkloadKept(w: Option<Workload>, v: Option<Workload>) {
    v.Some? ==>
      && w.Some? && v.value.replicas == w.value.replicas
      && (w.value.Desired() == 0 ==> |v.value.pods| <= |w.value.pods|)
  }

  predicate SourceKept(a: Option<Source>, b: Option<Source>) {
    b.Some? ==> a.Some? && b.value.pause == a.value.pause
  }

  predicate Rely(s: State, t: State) {
    && t.restoreName == s.restoreName && t.taken == s.taken
    && t.status == s.status
    && t.restoreConfig == s.restoreConfig
    && SourceKept(s.source, t.source)
    && WorkloadKept(s.workload, t.workload)
    && JobKept(s.restoreJob, t.restoreJob)
    && JobKept(s.validateJob, t.validateJob)
    && (Checked(s, true) ==> Checked(t, true))
    && (Checked(s, false) ==> Checked(t, false))
    && (s.status.phase.ScalingUp? && SkipHeld(s) ==> SkipHeld(t))
  }

  lemma RelyReflexive(s: State)
    ensures Rely(s, s)
  {
  }

  lemma RelyTransitive(s: State, t: State, u: State)
    requires Rely(s, t) && Rely(t, u)
    ensures Rely(s, u)
  {
  }

  lemma RelyReplica(s: State, a: Action)
    requires IsReplica(a) && Enabled(s, a)
    ensures Rely(s, Apply(s, a))
  {
  }

  lemma RelyOthers(s: State, a: Action)
    requires !IsRestore(a) && !IsReplica(a) && Enabled(s, a)
    ensures Rely(s, Apply(s, a))
  {
  }

  /** Every action that is not the restore controller's keeps the relation. */
  lemma RelyStep(s: State, a: Action)
    requires !IsRestore(a) && Enabled(s, a)
    ensures Rely(s, Apply(s, a))
  {
    if IsReplica(a) {
      RelyReplica(s, a);
    } else {
      RelyOthers(s, a);
    }
  }

  /** A guard that holds now holds after any interference. */
  lemma GuardStable(s: State, t: State, a: Action)
    requires IsRestore(a) && Guard(s, a) && Rely(s, t)
    ensures Guard(t, a)
  {
  }
}

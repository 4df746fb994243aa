/**
 The writes one undisturbed restore reconcile makes from a given cluster state: no API error,
 nobody else moving. It is the specification of the reconcile methods and the basis of progress.
 */
module RestorePlan {
  import opened Wrappers
  import opened LitestreamConfig
  import opened Cluster

  /** The count to scale back to: the recorded one, or 1 when none was recorded. */
  function TargetCount(st: Status): nat {
    if st.original.Some? then st.original.value else 1
  }

  lemma Regroup(a: seq<Action>, b: seq<Action>, c: seq<Action>, d: seq<Action>)
    ensures a + b + c + d == a + (b + (c + d))
  {
  }

  function If(b: bool, a: Action): seq<Action> { if b then [a] else [] }

  function PlanPending(s: State, now: nat): seq<Action>
    requires s.source.Some?
  {
    var n := if s.workload.Some? then s.workload.value.Desired() else 0;
    If(!s.source.value.pause, RPause) + [RToPausing(n, now)]
  }

  function PlanPausing(s: State): seq<Action>
    requires s.source.Some?
  {
    if !s.source.value.pause then [RPause]
    else if s.config != Some(Paused) then []
    else PlanScaleDown(s)
  }

  function PlanScaleDown(s: State): seq<Action> {
    If(s.workload.Some? && s.workload.value.replicas != Some(0), RScaleDown) + [RToScalingDown]
  }

  function PlanScalingDown(s: State, now: nat): seq<Action>
    requires s.source.Some?
  {
    if (s.workload.Some? && |s.workload.value.pods| > 0) || s.taken then []
    else [RRestoreConfig(s.source.value.spec)] + (If(s.restoreJob.None?, RCreateRestoreJob) + [RToRunning(now)])
  }

  function PlanCleanupScale(s: State): seq<Action> {
    var n := TargetCount(s.status);
    If(s.workload.Some? && s.workload.value.pods == [] && n > 0 && s.workload.value.replicas != Some(n),
       RCleanupScaleUp(n))
  }

  function PlanCleanup(s: State, now: nat): seq<Action>
    requires s.source.Some?
  {
    PlanCleanupScale(s) + (If(s.source.value.pause, RResume) + [RFailCleanup(true, now)])
  }

  function PlanRunning(s: State, now: nat): seq<Action>
    requires s.source.Some?
  {
    if s.restoreJob.None? then PlanCleanup(s, now)
    else match VerdictOf(s.restoreJob.value)
      case Open => []
      case Succeeded => [RToValidating]
      case Broken => PlanCleanup(s, now)
  }

  function PlanValidating(s: State, now: nat): seq<Action>
    requires s.source.Some?
  {
    if s.validateJob.None? then [RCreateValidateJob]
    else match VerdictOf(s.validateJob.value)
      case Open => []
      case Succeeded => [RToScalingUp]
      case Broken => PlanCleanup(s, now)
  }

  function PlanGate(db: Source): seq<Action> {
    If(!db.skip, RSetSkip) + If(db.pause, RResume)
  }

  function PlanScaleUp(s: State): seq<Action> {
    var n := TargetCount(s.status);
    If(n > 0 && s.workload.Some? && s.workload.value.replicas != Some(n), RScaleUp(n))
  }

  function PlanScalingUp(s: State, now: nat): seq<Action>
    requires s.source.Some?
  {
    PlanGate(s.source.value) +
    (if s.config.None? || s.config.value.Paused? then [] else PlanScaleUp(s) + [RComplete(false, now)])
  }

  /** The count that Pending records: no workload counts as none wanted, no number given as one. */
  function RecordedCount(w: Option<Workload>): nat {
    match w
    case None => 0
    case Some(v) => match v.replicas case None => 1 case Some(n) => n
  }

  /** The writes of a reconcile in their order, where every step is still to be done. */
  lemma WritesInOrder(s: State, now: nat, n: nat)
    requires Usable(s) && s.status.original == Some(n) && n > 0
    ensures Early(s.status.phase) && !s.source.value.pause ==>
              Plan(s, now) == [RPause, RToPausing(RecordedCount(s.workload), now)]
    ensures s.status.phase.Pausing? && !s.source.value.pause ==> Plan(s, now) == [RPause]
    ensures s.status.phase.Pausing? && s.source.value.pause && s.config == Some(Paused) && ScaledUp(s) ==>
              Plan(s, now) == [RScaleDown, RToScalingDown]
    ensures s.status.phase.ScalingDown? && Down(s) && !s.taken && s.restoreJob.None? ==>
              Plan(s, now) == [RRestoreConfig(s.source.value.spec), RCreateRestoreJob, RToRunning(now)]
    ensures s.status.phase.ScalingUp? && !s.source.value.skip && s.source.value.pause && s.config == Some(Paused) ==>
              Plan(s, now) == [RSetSkip, RResume]
    ensures s.status.phase.ScalingUp? && s.source.value.skip && !s.source.value.pause && StillAtZero(s) &&
            s.config.Some? && s.config.value.Full? ==>
              Plan(s, now) == [RScaleUp(n), RComplete(false, now)]
    ensures Abandoned(s) && StillAtZero(s) && s.source.value.pause ==>
              Plan(s, now) == [RCleanupScaleUp(n), RResume, RFailCleanup(true, now)]
  {
  }

  predicate ScaledUp(s: State) { s.workload.Some? && s.workload.value.replicas != Some(0) }

  predicate StillAtZero(s: State) {
    s.workload.Some? && s.workload.value.replicas == Some(0) && s.workload.value.pods == []
  }

  function Plan(s: State, now: nat): seq<Action> {
    if Terminal(s.status.phase) then []
    else if s.source.None? || !s.source.value.spec.backupEnabled || s.source.value.spec.s3.None? then [RFail(now)]
    else match s.status.phase
      case Unset => PlanPending(s, now)
      case Pending => PlanPending(s, now)
      case Pausing => PlanPausing(s)
      case ScalingDown => PlanScalingDown(s, now)
      case Running => PlanRunning(s, now)
      case Validating => PlanValidating(s, now)
      case ScalingUp => PlanScalingUp(s, now)
      case Complete => []
      case Failed => []
  }
}

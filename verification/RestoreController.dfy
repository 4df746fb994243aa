/**
 The restore controller (internal/controller/litestreamrestore_controller.go), one API call at a time.

 Before every API call everybody else may move any number of times, and the call itself may be
 served, refused, served with the answer lost, or never made because the process died. `script`
 fixes those choices, so a contract proved for every script covers every interleaving, every
 error and a crash between any two writes.
 */
module RestoreController {
  import opened Wrappers
  import opened LitestreamConfig
  import opened Cluster
  import opened Invariant
  import opened Interference
  import opened RestorePlan
  import opened RunTheorems

  datatype Fate = Served | Refused | Lost | Crash
  datatype Tick = Tick(others: seq<Action>, fate: Fate)

  datatype Read<+T> = Found(value: T) | NotFound | Unavailable
  datatype Outcome = Written | Missed | Unknown

  /** `Missed`: the patched object is gone, or the created one already exists. */
  ghost predicate Saw<T(!new)>(r: Read<T>, o: Option<T>) {
    match r
    case Found(v) => o == Some(v)
    case NotFound => o.None?
    case Unavailable => true
  }

  /** The condition scan of reconcileRunning and reconcileValidating: only Complete and Failed count. */
  method ScanConditions(job: Job) returns (v: Verdict)
    ensures v == VerdictOf(job)
    ensures v == Succeeded <==>
              exists i :: 0 <= i < |job| && job[i] == JobCondition(JobComplete, true) && UndecidedBefore(job, i)
    ensures v == Broken <==>
              exists i :: 0 <= i < |job| && job[i] == JobCondition(JobFailed, true) && UndecidedBefore(job, i)
    ensures v == Open <==>
              forall i | 0 <= i < |job| :: !(job[i].isTrue && (job[i].kind.JobComplete? || job[i].kind.JobFailed?))
  {
    VerdictExact(job);
    var i := 0;
    while i < |job|
      invariant 0 <= i <= |job|
      invariant VerdictOf(job) == VerdictOf(job[i..])
    {
      var cond := job[i];
      match cond.kind {
        case JobComplete => if cond.isTrue { return Succeeded; }
        case JobFailed => if cond.isTrue { return Broken; }
        case JobOther =>
      }
      i := i + 1;
    }
    return Open;
  }

  /** The comparison of a ConfigMap's text with the paused text. */
  method IsPausedText(c: Config) returns (b: bool)
    ensures b == c.Paused?
  {
    PausedTextIsPaused(c);
    b := c.Text() == PAUSED_CONFIG;
  }

  /** A workload that exists wants what it wanted before the restore. */
  predicate CountBack(s0: State, s: State) {
    s.workload.Some? ==> s.workload.value.Desired() == Born(s0)
  }

  /** Not a plain failure; and if an end, then one that left nothing undone on objects that exist. */
  predicate EndedWell(s0: State, s: State, a: Action) {
    && !a.RFail?
    && (a.RComplete? ==> !a.lookupFailed && CountBack(s0, s))
    && (a.RFailCleanup? ==> (a.clean && CountBack(s0, s)) || s.workload.None? || s.source.None?)
  }

  lemma RestoredAtEnd(s0: State, acts: seq<Action>)
    requires Fresh(s0) && ValidRun(s0, acts)
    ensures acts != [] && Restoring(acts[|acts| - 1]) ==> CountBack(s0, Final(s0, acts))
  {
    assert acts[..|acts|] == acts;
    if acts != [] && Restoring(acts[|acts| - 1]) && Final(s0, acts).workload.Some? {
      CountConserved(s0, acts, |acts| - 1, |acts|);
    }
  }

  class Restorer {
    var s: State
    var script: seq<Tick>
    var dead: bool
    ghost var s0: State
    ghost var acts: seq<Action>

    /** What has happened so far is a run of the protocol. */
    ghost predicate Valid()
      reads this
    {
      Fresh(s0) && ValidRun(s0, acts) && s == Final(s0, acts)
    }

    /** Nobody else moves and every call is served. */
    predicate Calm()
      reads this
    {
      script == [] && !dead
    }

    /** Every call is served; the others may move as they like. */
    predicate Answered()
      reads this
    {
      !dead && forall t | t in script :: t.fate.Served?
    }

    /** Nobody else moves, the next call is refused and all later ones are served. */
    predicate Refusing()
      reads this
    {
      script == [Tick([], Refused)] && !dead
    }

    /** The same of the second call. */
    predicate RefusingSecond()
      reads this
    {
      script == [Tick([], Served), Tick([], Refused)] && !dead
    }

    /** The run has just been prolonged by `a`. */
    ghost predicate Ends(a: Action, before: seq<Action>)
      reads this
    {
      |before| < |acts| && acts[|acts| - 1] == a
    }

    /**
     How a reconcile whose calls were all served, and whose source was fit, leaves the restore: its
     status unchanged, or just written, and by an end only with the count back or an object gone.
     */
    ghost predicate Concluded(status: Status, before: seq<Action>)
      reads this
    {
      || s.status == status
      || (|before| < |acts| && IsStatusWrite(acts[|acts| - 1]) && EndedWell(s0, s, acts[|acts| - 1]))
    }

    /** A plain failure was just written, and since `before` the source was missing or unfit to restore from. */
    ghost predicate FailedUnfit(now: nat, before: seq<Action>)
      requires Valid()
      reads this
    {
      Ends(RFail(now), before) && exists k | |before| <= k < |acts| :: !Usable(At(s0, acts, k))
    }

    constructor (start: State)
      requires Fresh(start)
      ensures Valid() && s == s0 == start && acts == [] && Calm()
    {
      s, script, dead := start, [], false;
      s0, acts := start, [];
    }

    // ---- One API call ----

    /** Lets the others move, then tells what becomes of the call. */
    method Turn() returns (fate: Fate)
      requires Valid()
      modifies this
      ensures Valid() && s0 == old(s0) && old(acts) <= acts
      ensures Rely(old(s), s)
      ensures old(Answered()) ==> Answered() && fate.Served?
      ensures old(Refusing()) ==> Calm() && s == old(s) && acts == old(acts) && fate.Refused?
      ensures old(RefusingSecond()) ==> Refusing() && s == old(s) && acts == old(acts) && fate.Served?
      ensures old(Calm()) ==> Calm() && s == old(s) && acts == old(acts)
    {
      RelyReflexive(s);
      if dead {
        return Crash;
      }
      if script == [] {
        return Served;
      }
      var tick := script[0];
      assert forall t | t in script[1..] :: t in script;
      script := script[1..];
      Others(tick.others);
      fate := tick.fate;
      dead := fate.Crash?;
    }

    /** The others take those of the given actions that are theirs and possible. */
    method Others(moves: seq<Action>)
      requires Valid()
      modifies `s, `acts
      ensures Valid() && old(acts) <= acts
      ensures Rely(old(s), s)
      ensures moves == [] ==> s == old(s) && acts == old(acts)
      ensures |moves| == 1 && !IsRestore(moves[0]) && Enabled(old(s), moves[0]) ==> s == Apply(old(s), moves[0])
    {
      RelyReflexive(s);
      for i := 0 to |moves|
        invariant Valid() && old(acts) <= acts
        invariant Rely(old(s), s)
        invariant i == 0 ==> s == old(s) && acts == old(acts)
        invariant i == 1 && !IsRestore(moves[0]) && Enabled(old(s), moves[0]) ==> s == Apply(old(s), moves[0])
      {
        if !IsRestore(moves[i]) && Enabled(s, moves[i]) {
          Extend(s0, acts, moves[i]);
          RelyStep(s, moves[i]);
          RelyTransitive(old(s), s, Apply(s, moves[i]));
          s, acts := Apply(s, moves[i]), acts + [moves[i]];
        }
      }
    }

    /** One write of the restore controller; its guard must hold when the call is prepared. */
    method Write(a: Action) returns (o: Outcome, ghost mid: State)
      requires Valid() && IsRestore(a) && Guard(s, a)
      modifies this
      ensures Valid() && s0 == old(s0) && old(acts) <= acts
      ensures Rely(old(s), mid) && Guard(mid, a)
      ensures s == mid || (Target(mid, a) && s == Apply(mid, a))
      ensures o.Written? ==> Target(mid, a) && s == Apply(mid, a) && Ends(a, old(acts))
      ensures o.Missed? ==> !Target(mid, a) && s == mid
      ensures old(Answered()) ==> Answered() && !o.Unknown?
      ensures old(Calm()) ==>
                && Calm() && mid == old(s)
                && acts == old(acts) + If(Target(mid, a), a)
                && (if Target(mid, a) then o.Written? else o.Missed?)
    {
      var fate := Turn();
      mid := s;
      GuardStable(old(s), s, a);
      if fate.Refused? || fate.Crash? {
        return Unknown, mid;
      }
      if !Target(s, a) {
        return if fate.Served? then Missed else Unknown, mid;
      }
      Extend(s0, acts, a);
      s, acts := Apply(s, a), acts + [a];
      o := if fate.Served? then Written else Unknown;
    }

    method GetRestore() returns (r: Read<Status>)
      requires Valid()
      modifies this
      ensures Valid() && s0 == old(s0) && old(acts) <= acts && Rely(old(s), s)
      ensures Saw(r, Some(s.status))
      ensures old(RefusingSecond()) ==> Refusing() && s == old(s) && acts == old(acts) && r.Found?
      ensures old(Answered()) ==> Answered() && !r.Unavailable?
      ensures old(Calm()) ==> Calm() && s == old(s) && acts == old(acts)
    {
      var fate := Turn();
      r := if fate.Served? then Found(s.status) else Unavailable;
    }

    method GetSource() returns (r: Read<Source>)
      requires Valid()
      modifies this
      ensures Valid() && s0 == old(s0) && old(acts) <= acts && Rely(old(s), s)
      ensures Saw(r, s.source)
      ensures old(Refusing()) ==> Calm() && s == old(s) && acts == old(acts) && r.Unavailable?
      ensures old(Answered()) ==> Answered() && !r.Unavailable?
      ensures old(Calm()) ==> Calm() && s == old(s) && acts == old(acts)
    {
      var fate := Turn();
      r := if !fate.Served? then Unavailable else if s.source.Some? then Found(s.source.value) else NotFound;
    }

    method GetConfig() returns (r: Read<Config>)
      requires Valid()
      modifies this
      ensures Valid() && s0 == old(s0) && old(acts) <= acts && Rely(old(s), s)
      ensures Saw(r, s.config)
      ensures old(Refusing()) ==> Calm() && s == old(s) && acts == old(acts) && r.Unavailable?
      ensures old(Answered()) ==> Answered() && !r.Unavailable?
      ensures old(Calm()) ==> Calm() && s == old(s) && acts == old(acts)
    {
      var fate := Turn();
      r := if !fate.Served? then Unavailable else if s.config.Some? then Found(s.config.value) else NotFound;
    }

    method GetWorkload() returns (r: Read<Workload>)
      requires Valid()
      modifies this
      ensures Valid() && s0 == old(s0) && old(acts) <= acts && Rely(old(s), s)
      ensures Saw(r, s.workload)
      ensures old(Refusing()) ==> Calm() && s == old(s) && acts == old(acts) && r.Unavailable?
      ensures old(Answered()) ==> Answered() && !r.Unavailable?
      ensures old(Calm()) ==> Calm() && s == old(s) && acts == old(acts)
    {
      var fate := Turn();
      r := if !fate.Served? then Unavailable else if s.workload.Some? then Found(s.workload.value) else NotFound;
    }

    method GetRestoreJob() returns (r: Read<Job>)
      requires Valid()
      modifies this
      ensures Valid() && s0 == old(s0) && old(acts) <= acts && Rely(old(s), s)
      ensures Saw(r, s.restoreJob)
      ensures old(Refusing()) ==> Calm() && s == old(s) && acts == old(acts) && r.Unavailable?
      ensures old(Answered()) ==> Answered() && !r.Unavailable?
      ensures old(Calm()) ==> Calm() && s == old(s) && acts == old(acts)
    {
      var fate := Turn();
      r := if !fate.Served? then Unavailable else if s.restoreJob.Some? then Found(s.restoreJob.value) else NotFound;
    }

    method GetValidateJob() returns (r: Read<Job>)
      requires Valid()
      modifies this
      ensures Valid() && s0 == old(s0) && old(acts) <= acts && Rely(old(s), s)
      ensures Saw(r, s.validateJob)
      ensures old(Refusing()) ==> Calm() && s == old(s) && acts == old(acts) && r.Unavailable?
      ensures old(Answered()) ==> Answered() && !r.Unavailable?
      ensures old(Calm()) ==> Calm() && s == old(s) && acts == old(acts)
    {
      var fate := Turn();
      r := if !fate.Served? then Unavailable else if s.validateJob.Some? then Found(s.validateJob.value) else NotFound;
    }

    // ---- Helpers of the controller ----

    /** The restore Job's verdict, if the Job can be read. */
    method SeesRestoreJob() returns (r: Read<Verdict>)
      requires Valid()
      modifies this
      ensures Valid() && s0 == old(s0) && old(acts) <= acts && Rely(old(s), s)
      ensures r.NotFound? ==> s.restoreJob.None?
      ensures r.Found? ==> Done(s.restoreJob, r.value)
      ensures old(Refusing()) ==> Calm() && acts == old(acts) && r.Unavailable?
      ensures old(Answered()) ==> Answered() && !r.Unavailable?
      ensures old(Calm()) ==> Calm() && s == old(s) && acts == old(acts)
    {
      var job := GetRestoreJob();
      match job {
        case Unavailable => r := Unavailable;
        case NotFound => r := NotFound;
        case Found(j) =>
          var v := ScanConditions(j);
          r := Found(v);
      }
    }

    /** The same for the validation Job. */
    method SeesValidateJob() returns (r: Read<Verdict>)
      requires Valid()
      modifies this
      ensures Valid() && s0 == old(s0) && old(acts) <= acts && Rely(old(s), s)
      ensures r.NotFound? ==> s.validateJob.None?
      ensures r.Found? ==> Done(s.validateJob, r.value)
      ensures old(Refusing()) ==> Calm() && acts == old(acts) && r.Unavailable?
      ensures old(Answered()) ==> Answered() && !r.Unavailable?
      ensures old(Calm()) ==> Calm() && s == old(s) && acts == old(acts)
    {
      var job := GetValidateJob();
      match job {
        case Unavailable => r := Unavailable;
        case NotFound => r := NotFound;
        case Found(j) =>
          var v := ScanConditions(j);
          r := Found(v);
      }
    }

    /** Whether the source ConfigMap, if it can be read, holds the paused text. */
    method SeesPaused() returns (r: Read<bool>)
      requires Valid()
      modifies this
      ensures Valid() && s0 == old(s0) && old(acts) <= acts && Rely(old(s), s)
      ensures r.Found? ==> Agrees(s.config, r.value)
      ensures old(Refusing()) ==> Calm() && acts == old(acts) && !r.Found?
      ensures old(Answered()) ==> Answered()
      ensures old(Calm()) ==>
                Calm() && s == old(s) && acts == old(acts) && (r.Found? <==> s.config.Some?)
    {
      var cm := GetConfig();
      if !cm.Found? {
        return Unavailable;
      }
      var paused := IsPausedText(cm.value);
      r := Found(paused);
    }

    /** setStatus: the given arguments, written over the controller's own copy of the status. */
    method PatchStatus(restore: Status, phase: Phase, jobName: string, original: Option<nat>,
                       start: Option<nat>, completion: Option<nat>, a: Action)
      requires Valid() && IsStatusWrite(a) && Guard(s, a)
      requires restore == s.status
      requires StatusAfter(s, a) == SetStatus(restore, phase, jobName, original, start, completion)
      modifies this
      ensures Valid() && s0 == old(s0) && old(acts) <= acts
      ensures WorkloadKept(old(s.workload), s.workload) && SourceKept(old(s.source), s.source)
      ensures old(Answered()) ==> Answered() && Ends(a, old(acts)) && (Restoring(a) ==> CountBack(s0, s))
      ensures old(Calm()) ==> Calm() && acts == old(acts) + [a]
    {
      var _, _ := Write(a);
      RestoredAtEnd(s0, acts);
    }

    method FailRestore(restore: Status, now: nat)
      requires Valid() && restore == s.status && !Terminal(restore.phase)
      modifies this
      ensures Valid() && s0 == old(s0) && old(acts) <= acts
      ensures old(Answered()) ==> Answered() && Ends(RFail(now), old(acts))
      ensures old(Calm()) ==> Calm() && acts == old(acts) + [RFail(now)]
    {
      PatchStatus(restore, Failed, "", None, Some(now), Some(now), RFail(now));
    }

    method PauseReplication(db: Source) returns (ok: bool)
      requires Valid() && (Early(s.status.phase) || s.status.phase.Pausing?)
      requires s.source.Some? ==> s.source.value.pause == db.pause
      modifies this
      ensures Valid() && s0 == old(s0) && old(acts) <= acts
      ensures s.status == old(s.status) && WorkloadKept(old(s.workload), s.workload)
      ensures ok && s.source.Some? ==> s.source.value.pause
      ensures old(Answered()) ==> Answered()
      ensures old(Calm()) && old(s.source).Some? ==>
                Calm() && ok && acts == old(acts) + If(!db.pause, RPause)
    {
      if db.pause {
        return true;
      }
      var o, mid := Write(RPause);
      ok := o.Written?;
    }

    method ResumeReplication(db: Source) returns (ok: bool)
      requires Valid() && Guard(s, RResume)
      requires s.source.Some? ==> s.source.value.pause == db.pause
      modifies this
      ensures Valid() && s0 == old(s0) && old(acts) <= acts
      ensures s.status == old(s.status) && WorkloadKept(old(s.workload), s.workload)
      ensures JobKept(old(s.restoreJob), s.restoreJob) && JobKept(old(s.validateJob), s.validateJob)
      ensures old(s.status.phase).ScalingUp? && SkipHeld(old(s)) ==> SkipHeld(s)
      ensures ok && s.source.Some? ==> !s.source.value.pause
      ensures old(Answered()) ==> Answered() && (ok || s.source.None?)
      ensures old(Calm()) && old(s.source).Some? ==>
                && Calm() && ok && acts == old(acts) + If(db.pause, RResume)
                && s == old(s).(source := Some(old(s.source).value.(pause := false)),
                                torn := old(s).torn && !db.pause)
    {
      if !db.pause {
        return true;
      }
      var latest := GetSource();
      if !latest.Found? {
        return false;
      }
      GuardStable(old(s), s, RResume);
      ghost var before := s;
      ok := true;
      if latest.value.pause {
        var o, mid := Write(RResume);
        RelyTransitive(old(s), before, mid);
        ok := o.Written?;
      }
    }

    method SetSkipArchiveCheck() returns (ok: bool)
      requires Valid() && s.status.phase.ScalingUp?
      modifies this
      ensures Valid() && s0 == old(s0) && old(acts) <= acts
      ensures old(Refusing()) ==> !ok && acts == old(acts)
      ensures old(Answered()) ==> Answered()
      ensures s.status == old(s.status) && WorkloadKept(old(s.workload), s.workload)
      ensures SourceKept(old(s.source), s.source)
      ensures ok ==> SkipHeld(s)
      ensures old(Calm()) && old(s.source).Some? ==>
                && Calm() && ok && acts == old(acts) + If(!old(s.source).value.skip, RSetSkip)
                && s == old(s).(source := Some(old(s.source).value.(skip := true)))
    {
      var latest := GetSource();
      if !latest.Found? {
        return false;
      }
      if latest.value.skip {
        return true;
      }
      ghost var before := s;
      var o, mid := Write(RSetSkip);
      RelyTransitive(old(s), before, mid);
      ok := o.Written?;
    }

    /** Patches the replica count unless it already is `n`; `a` is the write's place in the protocol. */
    method ScaleWorkload(wt: Workload, n: nat, a: Action) returns (ok: bool)
      requires Valid() && ((a == RScaleDown && n == 0) || a == RScaleUp(n) || a == RCleanupScaleUp(n))
      requires s.workload.Some? ==> s.workload.value.replicas == wt.replicas
      requires wt.replicas != Some(n) ==> Guard(s, a)
      modifies this
      ensures Valid() && s0 == old(s0) && old(acts) <= acts
      ensures s.status == old(s.status)
      ensures SourceKept(old(s.source), s.source)
      ensures JobKept(old(s.restoreJob), s.restoreJob) && JobKept(old(s.validateJob), s.validateJob)
      ensures Checked(old(s), true) ==> Checked(s, true)
      ensures Checked(old(s), false) ==> Checked(s, false)
      ensures ok && s.workload.Some? ==> s.workload.value.replicas == Some(n)
      ensures old(Answered()) ==> Answered() && (ok || s.workload.None?)
      ensures old(Calm()) && old(s.workload).Some? ==>
                && Calm() && ok && acts == old(acts) + If(wt.replicas != Some(n), a)
                && s.source == old(s.source)
    {
      if wt.replicas == Some(n) {
        return true;
      }
      var o, mid := Write(a);
      ok := o.Written?;
    }

    // ---- The reconcile, phase by phase ----

    method ReconcilePending(restore: Status, db: Source, now: nat)
      requires Valid() && restore == s.status && Early(restore.phase)
      requires s.source.Some? ==> s.source.value.pause == db.pause
      modifies this
      ensures Valid() && s0 == old(s0) && old(acts) <= acts
      ensures old(Refusing()) ==> acts == old(acts) + [RFail(now)]
      ensures old(Answered()) ==> Answered() && Concluded(old(s.status), old(acts))
      ensures old(Calm()) && old(s.source) == Some(db) ==> acts == old(acts) + PlanPending(old(s), now)
    {
      var originalReplicas := 0;
      var wt := GetWorkload();
      match wt {
        case Found(w) => originalReplicas := w.Desired();
        case NotFound =>
        case Unavailable =>
          FailRestore(restore, now);
          return;
      }
      var ok := PauseReplication(db);
      if !ok {
        return;
      }
      PatchStatus(restore, Pausing, restore.jobName, Some(originalReplicas), Some(now), None,
                  RToPausing(originalReplicas, now));
    }

    method ReconcilePausing(restore: Status, db: Source, now: nat)
      requires Valid() && restore == s.status && restore.phase.Pausing?
      requires s.source.Some? ==> s.source.value.pause == db.pause
      modifies this
      ensures Valid() && s0 == old(s0) && old(acts) <= acts
      ensures old(Refusing()) && db.pause ==> acts == old(acts)
      ensures old(Answered()) ==> Answered() && Concluded(old(s.status), old(acts))
      ensures old(Calm()) && old(s.source) == Some(db) ==> acts == old(acts) + PlanPausing(old(s))
    {
      if !db.pause {
        var _ := PauseReplication(db);
        return;
      }
      var paused := SeesPaused();
      if paused != Found(true) {
        return;
      }
      ScaleDown(restore, now);
    }

    /** With the pause seen in annotation and ConfigMap: the workload to zero, then the next phase. */
    method ScaleDown(restore: Status, now: nat)
      requires Valid() && restore == s.status && restore.phase.Pausing? && Checked(s, true)
      modifies this
      ensures Valid() && s0 == old(s0) && old(acts) <= acts
      ensures old(Refusing()) ==> acts == old(acts) + [RFail(now)]
      ensures old(Answered()) ==> Answered() && Concluded(old(s.status), old(acts))
      ensures old(Calm()) ==> acts == old(acts) + PlanScaleDown(old(s))
    {
      var wt := GetWorkload();
      if wt.Unavailable? {
        FailRestore(restore, now);
        return;
      }
      if wt.Found? {
        var ok := ScaleWorkload(wt.value, 0, RScaleDown);
        if !ok {
          return;
        }
      }
      PatchStatus(restore, ScalingDown, restore.jobName, restore.original, restore.start, None, RToScalingDown);
    }

    /** The restore Job and, before it, the ConfigMap it mounts; a Job that already exists is accepted. */
    method CreateRestoreJob(db: Source) returns (ok: bool)
      requires Valid() && s.status.phase.ScalingDown? && Down(s)
      modifies this
      ensures Valid() && s0 == old(s0) && old(acts) <= acts
      ensures s.status == old(s.status) && s.restoreName == old(s.restoreName) && Down(s)
      ensures ok ==> s.restoreConfig == Some(Full(db.spec)) && !s.taken
      ensures old(Answered()) ==> Answered() && (ok <==> !s.taken)
      ensures old(Calm()) ==> Calm() && ok == !old(s.taken)
      ensures old(Calm()) && ok ==>
                acts == old(acts) + [RRestoreConfig(db.spec)] + If(old(s.restoreJob).None?, RCreateRestoreJob)
      ensures old(Calm()) && !ok ==> acts == old(acts)
    {
      var written, _ := Write(RRestoreConfig(db.spec));
      if !written.Written? {
        return false;
      }
      var created, _ := Write(RCreateRestoreJob);
      ok := !created.Unknown?;
    }

    method ReconcileScalingDown(restore: Status, db: Source, now: nat)
      requires Valid() && restore == s.status && restore.phase.ScalingDown?
      modifies this
      ensures Valid() && s0 == old(s0) && old(acts) <= acts
      ensures old(Refusing()) ==> acts == old(acts) + [RFail(now)]
      ensures old(Answered()) ==> Answered() && Concluded(old(s.status), old(acts))
      ensures old(Calm()) && old(s.source) == Some(db) ==> acts == old(acts) + PlanScalingDown(old(s), now)
    {
      var wt := GetWorkload();
      if wt.Unavailable? {
        FailRestore(restore, now);
        return;
      }
      if wt.Found? && |wt.value.pods| > 0 {
        return;
      }
      InvFinal(s0, acts);
      assert Down(s);
      var ok := CreateRestoreJob(db);
      if !ok {
        return;
      }
      PatchStatus(restore, Running, RestoreJobName(s), restore.original, Some(now), None, RToRunning(now));
      Regroup(old(acts), [RRestoreConfig(db.spec)], If(old(s).restoreJob.None?, RCreateRestoreJob), [RToRunning(now)]);
    }

    method ReconcileRunning(restore: Status, db: Source, now: nat)
      requires Valid() && restore == s.status && restore.phase.Running?
      requires s.source.Some? ==> s.source.value.pause == db.pause
      modifies this
      ensures Valid() && s0 == old(s0) && old(acts) <= acts
      ensures old(Refusing()) ==> acts == old(acts)
      ensures old(Answered()) ==> Answered() && Concluded(old(s.status), old(acts))
      ensures old(Calm()) && old(s.source) == Some(db) ==> acts == old(acts) + PlanRunning(old(s), now)
    {
      InvFinal(s0, acts);
      assert restore.jobName == RestoreJobName(s);
      var job := SeesRestoreJob();
      match job {
        case Unavailable => return;
        case NotFound => FailRestoreWithCleanup(restore, db, now);
        case Found(v) =>
          match v {
            case Open =>
            case Succeeded =>
              PatchStatus(restore, Validating, restore.jobName, restore.original, restore.start, None, RToValidating);
            case Broken => FailRestoreWithCleanup(restore, db, now);
          }
      }
    }

    method ReconcileValidating(restore: Status, db: Source, now: nat)
      requires Valid() && restore == s.status && restore.phase.Validating?
      requires s.source.Some? ==> s.source.value.pause == db.pause
      modifies this
      ensures Valid() && s0 == old(s0) && old(acts) <= acts
      ensures old(Refusing()) ==> acts == old(acts)
      ensures old(Answered()) ==> Answered() && Concluded(old(s.status), old(acts))
      ensures old(Calm()) && old(s.source) == Some(db) ==> acts == old(acts) + PlanValidating(old(s), now)
    {
      var job := SeesValidateJob();
      match job {
        case Unavailable => return;
        case NotFound => var _, _ := Write(RCreateValidateJob);
        case Found(v) =>
          match v {
            case Open =>
            case Succeeded =>
              PatchStatus(restore, ScalingUp, restore.jobName, restore.original, restore.start, None, RToScalingUp);
            case Broken => FailRestoreWithCleanup(restore, db, now);
          }
      }
    }

    /** Steps 1 and 2 of the scale-up: skip set, pause gone. */
    method Release(db: Source) returns (ok: bool)
      requires Valid() && s.status.phase.ScalingUp?
      requires s.source.Some? ==> s.source.value.pause == db.pause
      modifies this
      ensures Valid() && s0 == old(s0) && old(acts) <= acts
      ensures old(Refusing()) ==> !ok && acts == old(acts)
      ensures s.status == old(s.status)
      ensures ok ==> SkipHeld(s) && (s.source.Some? ==> !s.source.value.pause)
      ensures old(Answered()) ==> Answered()
      ensures old(Calm()) && old(s.source) == Some(db) ==>
                && Calm() && ok && acts == old(acts) + PlanGate(db)
                && s == old(s).(source := Some(db.(skip := true, pause := false)), torn := old(s).torn && !db.pause)
    {
      ok := SetSkipArchiveCheck();
      if ok {
        ok := ResumeReplication(db);
      }
    }

    /** Steps 1 to 3 of the scale-up: skip set, pause gone, full configuration in place. */
    method OpenGate(db: Source) returns (open: bool)
      requires Valid() && s.status.phase.ScalingUp?
      requires s.source.Some? ==> s.source.value.pause == db.pause
      modifies this
      ensures Valid() && s0 == old(s0) && old(acts) <= acts
      ensures old(Refusing()) ==> !open && acts == old(acts)
      ensures s.status == old(s.status)
      ensures open ==> GatePassed(s)
      ensures old(Answered()) ==> Answered()
      ensures old(Calm()) && old(s.source) == Some(db) ==>
                && Calm()
                && acts == old(acts) + PlanGate(db)
                && open == (old(s.config).Some? && old(s.config).value.Full?)
                && s == old(s).(source := Some(db.(skip := true, pause := false)), torn := s.torn)
    {
      open := Release(db);
      if !open {
        return;
      }
      var paused := SeesPaused();
      open := paused == Found(false);
    }

    /** Step 4: back to the recorded count; a lookup error, and nothing else, is only logged. */
    method ScaleBackUp(restore: Status) returns (ok: bool, lookupFailed: bool)
      requires Valid() && restore == s.status && restore.phase.ScalingUp?
      requires GatePassed(s)
      modifies this
      ensures Valid() && s0 == old(s0) && old(acts) <= acts
      ensures s.status == old(s.status)
      ensures ok ==> GatePassed(s)
      ensures ok && !lookupFailed && s.workload.Some? ==> s.status.original == Some(s.workload.value.Desired())
      ensures old(Answered()) ==> Answered() && !lookupFailed && (ok || s.workload.None?)
      ensures old(Refusing()) && restore.original != Some(0) ==> Calm() && ok && lookupFailed && acts == old(acts)
      ensures old(Calm()) ==>
                Calm() && ok && !lookupFailed && acts == old(acts) + PlanScaleUp(old(s))
    {
      InvFinal(s0, acts);
      ok, lookupFailed := true, false;
      var target := if restore.original.Some? then restore.original.value else 1;
      if target > 0 {
        var wt := GetWorkload();
        if wt.Unavailable? {
          lookupFailed := true;
        } else if wt.Found? {
          ok := ScaleWorkload(wt.value, target, RScaleUp(target));
        }
      }
    }

    method ReconcileScalingUp(restore: Status, db: Source, now: nat)
      requires Valid() && restore == s.status && restore.phase.ScalingUp?
      requires s.source.Some? ==> s.source.value.pause == db.pause
      modifies this
      ensures Valid() && s0 == old(s0) && old(acts) <= acts
      ensures old(Refusing()) ==> acts == old(acts)
      ensures old(Answered()) ==> Answered() && Concluded(old(s.status), old(acts))
      ensures old(Calm()) && old(s.source) == Some(db) ==> acts == old(acts) + PlanScalingUp(old(s), now)
    {
      var open := OpenGate(db);
      if !open {
        return;
      }
      CompleteRestore(restore, now);
      Regroup(old(acts), PlanGate(db), PlanScaleUp(old(s)), [RComplete(false, now)]);
    }

    /** Step 4 and the final status. */
    method CompleteRestore(restore: Status, now: nat)
      requires Valid() && restore == s.status && GatePassed(s)
      modifies this
      ensures Valid() && s0 == old(s0) && old(acts) <= acts
      ensures old(Answered()) ==> Answered() && Concluded(old(s.status), old(acts))
      ensures old(Refusing()) && restore.original != Some(0) ==> acts == old(acts) + [RComplete(true, now)]
      ensures old(Calm()) ==> acts == old(acts) + PlanScaleUp(old(s)) + [RComplete(false, now)]
    {
      var ok, lookupFailed := ScaleBackUp(restore);
      if !ok {
        return;
      }
      PatchStatus(restore, Complete, restore.jobName, restore.original, restore.start, Some(now),
                  RComplete(lookupFailed, now));
    }

    /** Best effort: scale back up if still at zero. `clean` says that nothing was left undone. */
    method CleanupScale(restore: Status) returns (clean: bool)
      requires Valid() && restore == s.status && Abandoned(s)
      modifies this
      ensures Valid() && s0 == old(s0) && old(acts) <= acts
      ensures s.status == old(s.status) && Abandoned(s) && SourceKept(old(s.source), s.source)
      ensures clean && s.workload.Some? ==> s.status.original == Some(s.workload.value.Desired())
      ensures old(Answered()) ==> Answered() && (clean || s.workload.None?)
      ensures old(Refusing()) ==> Calm() && !clean && s == old(s) && acts == old(acts)
      ensures old(Calm()) ==>
                Calm() && clean && s.source == old(s.source) && acts == old(acts) + PlanCleanupScale(old(s))
    {
      clean := true;
      var wt := GetWorkload();
      InvFinal(s0, acts);
      if wt.Found? && |wt.value.pods| == 0 {
        var target := if restore.original.Some? then restore.original.value else 1;
        if target > 0 {
          clean := ScaleWorkload(wt.value, target, RCleanupScaleUp(target));
        }
      }
      if wt.Unavailable? {
        clean := false;
      }
    }

    /** The best-effort part: the workload, then the pause. */
    method Cleanup(restore: Status, db: Source) returns (clean: bool)
      requires Valid() && restore == s.status && Abandoned(s)
      requires s.source.Some? ==> s.source.value.pause == db.pause
      modifies this
      ensures Valid() && s0 == old(s0) && old(acts) <= acts
      ensures s.status == old(s.status) && Guard(s, RFailCleanup(clean, 0))
      ensures old(Answered()) ==> Answered() && (clean || s.workload.None? || s.source.None?)
      ensures old(Refusing()) && old(s.source) == Some(db) ==>
                Calm() && !clean && acts == old(acts) + If(db.pause, RResume)
      ensures old(Calm()) && old(s.source) == Some(db) ==>
                Calm() && clean && acts == old(acts) + PlanCleanupScale(old(s)) + If(db.pause, RResume)
    {
      clean := CleanupScale(restore);
      var resumed := ResumeReplication(db);
      clean := clean && resumed;
    }

    /** `clean` is not in the source, which only logs what failed. */
    method FailRestoreWithCleanup(restore: Status, db: Source, now: nat)
      requires Valid() && restore == s.status && Abandoned(s)
      requires s.source.Some? ==> s.source.value.pause == db.pause
      modifies this
      ensures Valid() && s0 == old(s0) && old(acts) <= acts
      ensures old(Answered()) ==>
                && Answered()
                && (|| Ends(RFailCleanup(true, now), old(acts))
                    || Ends(RFailCleanup(false, now), old(acts)))
                && EndedWell(s0, s, acts[|acts| - 1])
      ensures old(Refusing()) && old(s.source) == Some(db) ==>
                acts == old(acts) + (If(db.pause, RResume) + [RFailCleanup(false, now)])
      ensures old(Calm()) && old(s.source) == Some(db) ==> acts == old(acts) + PlanCleanup(old(s), now)
    {
      var clean := Cleanup(restore, db);
      PatchStatus(restore, Failed, restore.jobName, restore.original, restore.start, Some(now),
                  RFailCleanup(clean, now));
      Regroup(old(acts), PlanCleanupScale(old(s)), If(db.pause, RResume), [RFailCleanup(true, now)]);
    }

    /** One reconcile: a run of the protocol stays one, and undisturbed it makes exactly the planned writes. */
    method Reconcile(now: nat)
      requires Valid()
      modifies this
      ensures Valid() && s0 == old(s0) && old(acts) <= acts
      ensures old(RefusingSecond()) && !Terminal(old(s.status).phase) ==> acts == old(acts) + [RFail(now)]
      ensures old(Answered()) ==> Concluded(old(s.status), old(acts)) || FailedUnfit(now, old(acts))
      ensures old(Calm()) ==> acts == old(acts) + Plan(old(s), now)
    {
      var got := GetRestore();
      if !got.Found? {
        return;
      }
      var restore := got.value;
      if restore.phase.Complete? || restore.phase.Failed? {
        return;
      }
      var source := GetSource();
      ghost var seen := acts;
      if !source.Found? || !source.value.spec.backupEnabled || source.value.spec.s3.None? {
        FailRestore(restore, now);
        AtPrefix(s0, acts, seen);
        return;
      }
      ReconcilePhase(restore, source.value, now);
    }

    method ReconcilePhase(restore: Status, db: Source, now: nat)
      requires Valid() && restore == s.status && !Terminal(restore.phase)
      requires s.source.Some? ==> s.source.value.pause == db.pause
      modifies this
      ensures Valid() && s0 == old(s0) && old(acts) <= acts
      ensures old(Answered()) ==> Concluded(old(s.status), old(acts))
      ensures old(Calm()) && old(s.source) == Some(db) && Usable(old(s)) ==> acts == old(acts) + Plan(old(s), now)
    {
      match restore.phase {
        case Unset => ReconcilePending(restore, db, now);
        case Pending => ReconcilePending(restore, db, now);
        case Pausing => ReconcilePausing(restore, db, now);
        case ScalingDown => ReconcileScalingDown(restore, db, now);
        case Running => ReconcileRunning(restore, db, now);
        case Validating => ReconcileValidating(restore, db, now);
        case ScalingUp => ReconcileScalingUp(restore, db, now);
      }
    }

    /** An undisturbed reconcile leaves the cluster where the planned writes lead. */
    method ReconcileCalmly(now: nat)
      requires Valid() && Runs(s, Plan(s, now))
      modifies this
      ensures Valid() && s0 == old(s0) && old(acts) <= acts
      ensures s == After(old(s), Plan(old(s), now))
    {
      script, dead := [], false;
      Prolong(s0, acts, Plan(s, now));
      Reconcile(now);
    }

    /** Any number of reconciles, each disturbed as its script says; the process is restarted in between. */
    method Operate(rounds: seq<(seq<Tick>, nat)>)
      requires Valid()
      modifies this
      ensures Valid() && s0 == old(s0) && old(acts) <= acts
      ensures forall k | 0 <= k <= |acts| ::
                var t := At(s0, acts, k);
                (Active(t.restoreJob) ==> Down(t)) && (Settled(s0) ==> Window(t))
    {
      for i := 0 to |rounds|
        invariant Valid() && s0 == old(s0) && old(acts) <= acts
      {
        script, dead := rounds[i].0, false;
        Reconcile(rounds[i].1);
      }
      forall k | 0 <= k <= |acts|
        ensures Active(At(s0, acts, k).restoreJob) ==> Down(At(s0, acts, k))
        ensures Settled(s0) ==> Window(At(s0, acts, k))
      {
        InvAt(s0, acts, k);
        if Settled(s0) {
          PauseWindow(s0, acts, k);
        }
      }
    }
  }
}
